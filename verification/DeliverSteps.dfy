/** A background worker takes a reply or a push: it copies the row and applies again its own updates that the copy
    does not have. */
module DeliverSteps {
  import opened Rows
  import opened ServerSpec
  import opened Protocol
  import opened Invariant
  import ServeSteps
  import UpdateSteps
  import ReadSteps

  // ---- Replaying old batches on a copy ----

  lemma {:induction false} ReplayIds(saved: seq<map<Key, Cell>>, key: Key, from: nat, upto: nat, cell: Cell, i: nat)
    requires upto <= |saved|
    ensures i in Replay(saved, key, from, upto, cell).ids <==>
            || i in cell.ids
            || exists n {:trigger Oplog(saved[n], key)} :: from <= n < upto && i in Oplog(saved[n], key).ids
    decreases upto
  {
    if upto > from {
      ReplayIds(saved, key, from, upto - 1, cell, i);
    }
  }

  /** The updates of a client's batches to one row, and no others, in the batch that their place names. */
  ghost predicate OwnBatches(log: seq<Upd>, place: seq<Place>, saved: seq<map<Key, Cell>>, c: nat, key: Key)
    requires |place| == |log|
  {
    && (forall n, i: nat {:trigger i in Oplog(saved[n], key).ids} ::
          0 <= n < |saved| && i in Oplog(saved[n], key).ids ==>
          i < |place| && place[i] == Sent(n) && log[i].thread.client == c && log[i].key == key)
    && (forall i {:trigger place[i]} ::
          0 <= i < |place| && place[i].Sent? && log[i].thread.client == c && log[i].key == key ==>
          place[i].batch < |saved| && i in Oplog(saved[place[i].batch], key).ids)
    && (forall n {:trigger Oplog(saved[n], key)} :: 0 <= n < |saved| ==> CellOk(log, Oplog(saved[n], key)))
  }

  lemma OwnBatchesOf(cfg: Config, log: seq<Upd>, place: seq<Place>, bg: map<(nat, nat), Bg>, c: nat, key: Key)
    requires |place| == |log| && Batches(cfg, log, place, bg) && AllBgCells(cfg, log, bg)
    requires c < |cfg.threads|
    ensures OwnBatches(log, place, BgOf(bg, c, Chan(cfg, key)).saved, c, key)
  {
    assert cfg.HasServer(cfg.home(key));
    var b := BgOf(bg, c, Chan(cfg, key));
    assert BgCells(log, b);
    forall n | 0 <= n < |b.saved| ensures CellOk(log, Oplog(b.saved[n], key)) {
      assert AllOk(log, b.saved[n]);
      ZeroOk(log);
      hide CellOk;
    }
    hide CellOk;
    forall n, i: nat | 0 <= n < |b.saved| && i in Oplog(b.saved[n], key).ids
      ensures i < |place| && place[i] == Sent(n) && log[i].thread.client == c && log[i].key == key
    {
      assert i in BgOf(bg, c, Chan(cfg, key)).saved[n][key].ids;
    }
  }

  /** The copy has none of what is replayed on it, and no update is replayed twice. */
  lemma {:induction false} ReplayOk(log: seq<Upd>, place: seq<Place>, saved: seq<map<Key, Cell>>, c: nat, key: Key,
                                    ver: nat, upto: nat, copy: Cell)
    requires |place| == |log| && OwnBatches(log, place, saved, c, key) && upto <= |saved|
    requires BaseOk(log, place, c, key, copy.ids, ver) && CellOk(log, copy)
    ensures CellOk(log, Replay(saved, key, ver, upto, copy))
    decreases upto
  {
    if upto > ver {
      ReplayOk(log, place, saved, c, key, ver, upto - 1, copy);
      var before, next := Replay(saved, key, ver, upto - 1, copy), Oplog(saved[upto - 1], key);
      forall i: nat | i in next.ids ensures i !in before.ids {
        ReplayIds(saved, key, ver, upto - 1, copy, i);
      }
      MergeOk(log, before, next);
    }
  }

  /** The table oplog holds this client's updates of the row that are not sent, while the worker is idle. */
  ghost predicate Unsent(log: seq<Upd>, place: seq<Place>, mine: Cell, c: nat, key: Key)
    requires |place| == |log|
  {
    && CellOk(log, mine)
    && (forall i: nat {:trigger i in mine.ids} :: i in mine.ids ==>
          i < |place| && place[i] == InTable && log[i].thread.client == c && log[i].key == key)
    && (forall i {:trigger place[i]} :: 0 <= i < |place| && log[i].thread.client == c && log[i].key == key ==>
          place[i] != InBg && (place[i] == InTable ==> i in mine.ids))
  }

  lemma UnsentOf(cfg: Config, log: seq<Upd>, place: seq<Place>, pOplog: map<(nat, Key), Cell>,
                 bg: map<(nat, nat), Bg>, c: nat, key: Key)
    requires |place| == |log| && TableOplogs(log, place, pOplog) && Gathered(cfg, log, place, bg)
    requires AllOk(log, pOplog) && BgOf(bg, c, Chan(cfg, key)).pc == Idle
    ensures Unsent(log, place, Oplog(pOplog, (c, key)), c, key)
  {
    OplogOk(log, pOplog, (c, key));
    hide CellOk;
    var mine := Oplog(pOplog, (c, key));
    forall i | 0 <= i < |place| && log[i].thread.client == c && log[i].key == key
      ensures place[i] != InBg && (place[i] == InTable ==> i in mine.ids)
    {
      assert place[i] == InBg ==> BgFor(cfg, bg, log[i]).pc.Drain?;
    }
  }

  /** The refreshed row holds the copy and all of the client's own updates since, each once. */
  lemma RefreshedOk(log: seq<Upd>, place: seq<Place>, saved: seq<map<Key, Cell>>, pOplog: map<(nat, Key), Cell>,
                    c: nat, key: Key, clock: int, ver: nat, copy: Cell)
    requires |place| == |log| && OwnBatches(log, place, saved, c, key)
    requires Unsent(log, place, Oplog(pOplog, (c, key)), c, key)
    requires BaseOk(log, place, c, key, copy.ids, ver) && CellOk(log, copy) && ver <= |saved|
    ensures PRowOk(log, place, c, key, |saved|, Refreshed(saved, pOplog, c, key, clock, ver, copy))
  {
    var mine, old' := Oplog(pOplog, (c, key)), Replay(saved, key, ver, |saved|, copy);
    var r := Refreshed(saved, pOplog, c, key, clock, ver, copy);
    ReplayOk(log, place, saved, c, key, ver, |saved|, copy);
    hide CellOk;
    forall i: nat
      ensures i in old'.ids <==>
        i in copy.ids || exists n {:trigger Oplog(saved[n], key)} :: ver <= n < |saved| && i in Oplog(saved[n], key).ids
    {
      ReplayIds(saved, key, ver, |saved|, copy, i);
    }
    forall i: nat | i in old'.ids ensures i < |place| && place[i].Sent? {
    }
    MergeOk(log, old', mine);
    RefreshedIds(log, place, saved, c, key, ver, copy, mine, old'.ids);
    assert r.cell.ids == old'.ids + mine.ids;
  }

  lemma RefreshedIds(log: seq<Upd>, place: seq<Place>, saved: seq<map<Key, Cell>>, c: nat, key: Key, ver: nat,
                     copy: Cell, mine: Cell, ids: set<nat>)
    requires |place| == |log| && OwnBatches(log, place, saved, c, key) && Unsent(log, place, mine, c, key)
    requires BaseOk(log, place, c, key, copy.ids, ver)
    requires forall i: nat :: i in ids <==>
      i in copy.ids || exists n {:trigger Oplog(saved[n], key)} :: ver <= n < |saved| && i in Oplog(saved[n], key).ids
    ensures forall i: nat :: i in ids + mine.ids ==>
      i < |place| && (i in copy.ids || (log[i].key == key && log[i].thread.client == c && Left(place[i])))
    ensures copy.ids <= ids
    ensures forall i :: 0 <= i < |place| && log[i].key == key && log[i].thread.client == c && Left(place[i])
              ==> i in ids + mine.ids
  {
    hide CellOk;
    forall i | 0 <= i < |place| && log[i].key == key && log[i].thread.client == c && Left(place[i])
      ensures i in ids + mine.ids
    {
      if place[i].Sent? {
        assert i in Oplog(saved[place[i].batch], key).ids;
      }
    }
  }

  // ---- The step ----

  /** The process rows after a message was taken, and their view. */
  function NewRows(saved: seq<map<Key, Cell>>, pOplog: map<(nat, Key), Cell>, pRow: map<(nat, Key), PRow>,
                   c: nat, m: Down): map<(nat, Key), PRow>
  {
    match m
    case Reply(key, clock, ver, copy) => pRow[(c, key) := Refreshed(saved, pOplog, c, key, clock, ver, copy)]
    case Push(clock, ver, rows) =>
      map w | w in pRow ::
        if w.0 == c && w.1 in rows
        then Refreshed(saved, pOplog, c, w.1, pRow[w].clock, ver, rows[w.1]) else pRow[w]
  }

  lemma DeliverState(s: State, c: nat, v: Srv)
    requires Queue(s.down, c, v) != []
    ensures var q := Queue(s.down, c, v);
      DoDeliver(s, c, v) == s.(
        down := s.down[(c, v) := q[1..]],
        seen := s.seen[(c, v) := q[0].clock],
        pRow := NewRows(BgOf(s.bg, c, v.chan).saved, s.pOplog, s.pRow, c, q[0]),
        pushClock := if q[0].Push? then s.pushClock[(c, v) := q[0].clock] else s.pushClock)
  {
  }

  /** A reply is stored with the clock it carries, over a row cached before or as a new one; all other rows stay. */
  lemma ReplyIsStored(s: State, c: nat, v: Srv)
    requires Queue(s.down, c, v) != [] && Queue(s.down, c, v)[0].Reply?
    ensures var m, s' := Queue(s.down, c, v)[0], DoDeliver(s, c, v);
      && Queue(s'.down, c, v) == Queue(s.down, c, v)[1..]
      && (c, m.key) in s'.pRow
      && s'.pRow[(c, m.key)].clock == m.clock
      && s'.pRow[(c, m.key)].base == m.cell.ids && s'.pRow[(c, m.key)].ver == m.ver
      && (forall w :: w != (c, m.key) ==> (w in s'.pRow <==> w in s.pRow) && (w in s.pRow ==> s'.pRow[w] == s.pRow[w]))
  {
    DeliverState(s, c, v);
    hide DoDeliver, Replay, Merge;
  }

  /** A push leaves the clocks of the cached rows alone. It brings the rows that the client caches up to its version,
      adds no row, and sets the push clock of its server to the clock it carries. */
  lemma PushIsStored(s: State, c: nat, v: Srv)
    requires Queue(s.down, c, v) != [] && Queue(s.down, c, v)[0].Push?
    ensures var m, s' := Queue(s.down, c, v)[0], DoDeliver(s, c, v);
      && Queue(s'.down, c, v) == Queue(s.down, c, v)[1..]
      && s'.pRow.Keys == s.pRow.Keys
      && ClockAt(s'.pushClock, c, v) == m.clock
      && (forall w :: w in s.pRow ==>
            && s'.pRow[w].clock == s.pRow[w].clock
            && if w.0 == c && w.1 in m.rows then s'.pRow[w].base == m.rows[w.1].ids && s'.pRow[w].ver == m.ver
               else s'.pRow[w] == s.pRow[w])
  {
    DeliverState(s, c, v);
    hide DoDeliver, Replay, Merge;
  }

  lemma DeliverKeeps(cfg: Config, s: State, c: nat, v: Srv)
    requires Inv(cfg, s) && MayDeliver(cfg, s, c, v)
    ensures Inv(cfg, DoDeliver(s, c, v))
  {
    hide DoDeliver, Caches, LogOk, ThreadOplogs, TableOplogs, Cancelled, Gathered, Batches, ServerRows, Clocks, Bgs,
         Flushes, Coverage, InTime, Network, CellsOk, ServerCells, Queue, NewRows, MayDeliver;
    DeliverCaches(cfg, s, c, v);
    assert Queue(s.down, c, v) != [] by { HasMail(cfg, s, c, v); }
    DeliverState(s, c, v);
  }

  lemma HasMail(cfg: Config, s: State, c: nat, v: Srv)
    requires MayDeliver(cfg, s, c, v)
    ensures Queue(s.down, c, v) != []
  {
    hide Queue;
  }

  lemma DeliverCaches(cfg: Config, s: State, c: nat, v: Srv)
    requires Inv(cfg, s) && MayDeliver(cfg, s, c, v)
    ensures Caches(cfg, DoDeliver(s, c, v))
  {
    DeliverState(s, c, v);
    hide DoDeliver, LogOk, ThreadOplogs, TableOplogs, Cancelled, Gathered, Batches, ServerRows, Timing, ServerCells,
         AllOk, AllBgCells, Copies, PRows, Downstream, ServerKeys, Coherent, RowsFresh, SysClocks, ThreadRows, NewRows;
    var q, saved := Queue(s.down, c, v), BgOf(s.bg, c, v.chan).saved;
    var pRow' := NewRows(saved, s.pOplog, s.pRow, c, q[0]);
    var down', seen' := s.down[(c, v) := q[1..]], s.seen[(c, v) := q[0].clock];
    var pushClock' := if q[0].Push? then s.pushClock[(c, v) := q[0].clock] else s.pushClock;
    HeadOk(cfg, s.log, s.place, s.bg, s.down, c, v);
    HeadGood(cfg, s, c, v);
    DownHome(cfg, s.log, s.place, c, v, |saved|, q[0]);
    PopCopies(cfg, s.log, s.place, s.bg, s.down, c, v);
    DeliverPRows(cfg, s, c, v, q[0]);
    DeliverViews(cfg, saved, s.pOplog, s.pRow, c, v, q[0]);
    DeliverDownstream(cfg, s, c, v, pRow');
    DeliverCoherent(cfg, s, c, v, pRow');
    DeliverFresh(cfg, s, c, v, q[0], seen', pushClock');
    DeliverSys(cfg, s, c, v, q[0].clock, pushClock');
  }

  lemma HeadOk(cfg: Config, log: seq<Upd>, place: seq<Place>, bg: map<(nat, nat), Bg>,
               down: map<(nat, Srv), seq<Down>>, c: nat, v: Srv)
    requires |place| == |log| && Copies(cfg, log, place, bg, down)
    requires c < |cfg.threads| && cfg.HasServer(v) && Queue(down, c, v) != []
    ensures DownOk(cfg, log, place, c, v, |BgOf(bg, c, v.chan).saved|, Queue(down, c, v)[0])
  {
    hide DownOk;
  }

  lemma HeadGood(cfg: Config, s: State, c: nat, v: Srv)
    requires |s.place| == |s.log| && Downstream(cfg, s.log, s.place, s.pRow, s.seen, s.down, s.srv)
    requires c < |cfg.threads| && cfg.HasServer(v) && Queue(s.down, c, v) != []
    ensures var q := Queue(s.down, c, v);
      GoodOne(s.log, s.place, ViewOf(cfg, s.pRow, c, v), ClockAt(s.seen, c, v), q[0])
  {
    hide GoodOne, ViewOf;
    assert DownstreamAt(s.log, s.place, ViewOf(cfg, s.pRow, c, v), ClockAt(s.seen, c, v), Queue(s.down, c, v),
                        SrvOf(cfg, s.srv, v));
  }

  lemma PopCopies(cfg: Config, log: seq<Upd>, place: seq<Place>, bg: map<(nat, nat), Bg>,
                  down: map<(nat, Srv), seq<Down>>, c: nat, v: Srv)
    requires |place| == |log| && Copies(cfg, log, place, bg, down) && Queue(down, c, v) != []
    ensures Copies(cfg, log, place, bg, down[(c, v) := Queue(down, c, v)[1..]])
  {
    hide DownOk, BgOf;
    var down' := down[(c, v) := Queue(down, c, v)[1..]];
    QueueSet(down, c, v, Queue(down, c, v)[1..]);
    forall d: nat, u, n | d < |cfg.threads| && cfg.HasServer(u) && 0 <= n < |Queue(down', d, u)|
      ensures DownOk(cfg, log, place, d, u, |BgOf(bg, d, u.chan).saved|, Queue(down', d, u)[n])
    {
      var m := if (d, u) == (c, v) then n + 1 else n;
      assert Queue(down', d, u)[n] == Queue(down, d, u)[m];
    }
  }

  lemma DeliverPRows(cfg: Config, s: State, c: nat, v: Srv, m: Down)
    requires Where(cfg, s) && CellsOk(cfg, s.log, s.tOplog, s.gone, s.pOplog, s.bg)
    requires PRows(cfg, s.log, s.place, s.bg, s.pRow)
    requires c < |cfg.threads| && cfg.HasServer(v) && BgOf(s.bg, c, v.chan).pc == Idle
    requires DownOk(cfg, s.log, s.place, c, v, |BgOf(s.bg, c, v.chan).saved|, m)
    ensures PRows(cfg, s.log, s.place, s.bg, NewRows(BgOf(s.bg, c, v.chan).saved, s.pOplog, s.pRow, c, m))
  {
    hide LogOk, ThreadOplogs, TableOplogs, Cancelled, Gathered, Batches, ServerRows, AllOk, AllBgCells, PRowOk, BgOf,
         Refreshed, OwnBatches, Unsent, BaseOk, CellOk;
    assert |s.place| == |s.log| by { assert LogOk(cfg, s.log, s.place); LogLength(cfg, s.log, s.place); }
    var saved := BgOf(s.bg, c, v.chan).saved;
    var pRow' := NewRows(saved, s.pOplog, s.pRow, c, m);
    forall w | w in pRow'
      ensures w.0 < |cfg.threads|
      ensures PRowOk(s.log, s.place, w.0, w.1, |BgOf(s.bg, w.0, Chan(cfg, w.1)).saved|, pRow'[w])
    {
      if w.0 == c && (if m.Reply? then w.1 == m.key else w.1 in m.rows) {
        var key := w.1;
        var copy := if m.Reply? then m.cell else m.rows[key];
        assert CopyOk(s.log, s.place, c, key, m.ver, |saved|, copy) && Home(cfg, key) == v;
        OwnBatchesOf(cfg, s.log, s.place, s.bg, c, key);
        UnsentOf(cfg, s.log, s.place, s.pOplog, s.bg, c, key);
        var clock := if m.Reply? then m.clock else s.pRow[w].clock;
        RefreshedOk(s.log, s.place, saved, s.pOplog, c, key, clock, m.ver, copy);
      } else {
        assert w in s.pRow && pRow'[w] == s.pRow[w];
      }
    }
  }

  lemma LogLength(cfg: Config, log: seq<Upd>, place: seq<Place>)
    requires LogOk(cfg, log, place)
    ensures |place| == |log|
  {
  }

  lemma DeliverViews(cfg: Config, saved: seq<map<Key, Cell>>, pOplog: map<(nat, Key), Cell>,
                     pRow: map<(nat, Key), PRow>, c: nat, v: Srv, m: Down)
    requires m.Reply? ==> Home(cfg, m.key) == v
    requires m.Push? ==> forall k :: k in m.rows ==> Home(cfg, k) == v
    ensures var pRow' := NewRows(saved, pOplog, pRow, c, m);
      && ViewOf(cfg, pRow', c, v) == Seen(ViewOf(cfg, pRow, c, v), m)
      && (forall d: nat, u :: (d, u) != (c, v) ==> ViewOf(cfg, pRow', d, u) == ViewOf(cfg, pRow, d, u))
  {
    hide NewRows, ViewOf, Seen;
    SameView(cfg, saved, pOplog, pRow, c, v, m);
    forall d: nat, u | (d, u) != (c, v)
      ensures ViewOf(cfg, NewRows(saved, pOplog, pRow, c, m), d, u) == ViewOf(cfg, pRow, d, u)
    {
      OtherView(cfg, saved, pOplog, pRow, c, v, m, d, u);
    }
  }

  lemma OtherView(cfg: Config, saved: seq<map<Key, Cell>>, pOplog: map<(nat, Key), Cell>,
                  pRow: map<(nat, Key), PRow>, c: nat, v: Srv, m: Down, d: nat, u: Srv)
    requires m.Reply? ==> Home(cfg, m.key) == v
    requires m.Push? ==> forall k :: k in m.rows ==> Home(cfg, k) == v
    requires (d, u) != (c, v)
    ensures ViewOf(cfg, NewRows(saved, pOplog, pRow, c, m), d, u) == ViewOf(cfg, pRow, d, u)
  {
    var pRow' := NewRows(saved, pOplog, pRow, c, m);
    NewRowsElsewhere(cfg, saved, pOplog, pRow, c, v, m);
    NewBases(cfg, saved, pOplog, pRow, c, v, m);
    ViewIs(cfg, pRow, d, u);
    ViewIs(cfg, pRow', d, u);
    hide NewRows, ViewOf;
    forall k ensures k in ViewOf(cfg, pRow', d, u) <==> k in ViewOf(cfg, pRow, d, u) {
    }
    forall k | k in ViewOf(cfg, pRow', d, u) ensures ViewOf(cfg, pRow', d, u)[k] == ViewOf(cfg, pRow, d, u)[k] {
    }
  }

  lemma ViewIs(cfg: Config, pRow: map<(nat, Key), PRow>, c: nat, v: Srv)
    ensures forall k {:trigger k in ViewOf(cfg, pRow, c, v)} ::
              k in ViewOf(cfg, pRow, c, v) <==> (c, k) in pRow && Home(cfg, k) == v
    ensures forall k {:trigger ViewOf(cfg, pRow, c, v)[k]} ::
              k in ViewOf(cfg, pRow, c, v) ==> ViewOf(cfg, pRow, c, v)[k] == pRow[(c, k)].base
  {
  }

  lemma SameView(cfg: Config, saved: seq<map<Key, Cell>>, pOplog: map<(nat, Key), Cell>,
                 pRow: map<(nat, Key), PRow>, c: nat, v: Srv, m: Down)
    requires m.Reply? ==> Home(cfg, m.key) == v
    ensures ViewOf(cfg, NewRows(saved, pOplog, pRow, c, m), c, v) == Seen(ViewOf(cfg, pRow, c, v), m)
  {
    var pRow' := NewRows(saved, pOplog, pRow, c, m);
    NewBases(cfg, saved, pOplog, pRow, c, v, m);
    ViewIs(cfg, pRow, c, v);
    ViewIs(cfg, pRow', c, v);
    hide NewRows, ViewOf;
    var view, view' := Seen(ViewOf(cfg, pRow, c, v), m), ViewOf(cfg, pRow', c, v);
    forall k ensures k in view' <==> k in view {
    }
    forall k | k in view' ensures view'[k] == view[k] {
    }
  }

  lemma NewBases(cfg: Config, saved: seq<map<Key, Cell>>, pOplog: map<(nat, Key), Cell>,
                 pRow: map<(nat, Key), PRow>, c: nat, v: Srv, m: Down)
    ensures var pRow' := NewRows(saved, pOplog, pRow, c, m);
      && pRow'.Keys == pRow.Keys + (if m.Reply? then {(c, m.key)} else {})
      && (forall w :: w in pRow' ==>
            (pRow'[w].base ==
             if w.0 == c && m.Reply? && w.1 == m.key then m.cell.ids
             else if w.0 == c && m.Push? && w.1 in m.rows then m.rows[w.1].ids
             else pRow[w].base))
  {
  }

  lemma DeliverDownstream(cfg: Config, s: State, c: nat, v: Srv, pRow': map<(nat, Key), PRow>)
    requires |s.place| == |s.log| && Downstream(cfg, s.log, s.place, s.pRow, s.seen, s.down, s.srv)
    requires c < |cfg.threads| && cfg.HasServer(v) && Queue(s.down, c, v) != []
    requires ViewOf(cfg, pRow', c, v) == Seen(ViewOf(cfg, s.pRow, c, v), Queue(s.down, c, v)[0])
    requires forall d: nat, u :: (d, u) != (c, v) ==> ViewOf(cfg, pRow', d, u) == ViewOf(cfg, s.pRow, d, u)
    ensures var q := Queue(s.down, c, v);
      Downstream(cfg, s.log, s.place, pRow', s.seen[(c, v) := q[0].clock], s.down[(c, v) := q[1..]], s.srv)
  {
    hide ViewOf, Good, EndClock, SrvOf, Seen, DownstreamAt;
    var q := Queue(s.down, c, v);
    var seen', down' := s.seen[(c, v) := q[0].clock], s.down[(c, v) := q[1..]];
    forall d: nat, u | d < |cfg.threads| && cfg.HasServer(u)
      ensures DownstreamAt(s.log, s.place, ViewOf(cfg, pRow', d, u), ClockAt(seen', d, u), Queue(down', d, u),
                           SrvOf(cfg, s.srv, u))
    {
      assert DownstreamAt(s.log, s.place, ViewOf(cfg, s.pRow, d, u), ClockAt(s.seen, d, u), Queue(s.down, d, u),
                          SrvOf(cfg, s.srv, u));
      if (d, u) == (c, v) {
        PopDownstream(s.log, s.place, ViewOf(cfg, s.pRow, c, v), ClockAt(s.seen, c, v), q, SrvOf(cfg, s.srv, v));
      }
    }
  }

  lemma PopDownstream(log: seq<Upd>, place: seq<Place>, view: map<Key, set<nat>>, clock: int, q: seq<Down>, s: Server)
    requires |place| == |log| && q != [] && DownstreamAt(log, place, view, clock, q, s)
    ensures DownstreamAt(log, place, Seen(view, q[0]), q[0].clock, q[1..], s)
  {
    UpdateSteps.GoodEndClock(log, place, Seen(view, q[0]), q[0].clock, q[1..]);
  }

  lemma DeliverCoherent(cfg: Config, s: State, c: nat, v: Srv, pRow': map<(nat, Key), PRow>)
    requires Coherent(cfg, s.pRow, s.down, s.srv) && Queue(s.down, c, v) != []
    requires ViewOf(cfg, pRow', c, v) == Seen(ViewOf(cfg, s.pRow, c, v), Queue(s.down, c, v)[0])
    requires forall d: nat, u :: (d, u) != (c, v) ==> ViewOf(cfg, pRow', d, u) == ViewOf(cfg, s.pRow, d, u)
    ensures Coherent(cfg, pRow', s.down[(c, v) := Queue(s.down, c, v)[1..]], s.srv)
  {
    hide ViewOf, SrvOf, Seen, CoherentView;
    var down' := s.down[(c, v) := Queue(s.down, c, v)[1..]];
    QueueSet(s.down, c, v, Queue(s.down, c, v)[1..]);
    forall d: nat, u | d < |cfg.threads| && cfg.HasServer(u)
      ensures EndView(ViewOf(cfg, pRow', d, u), Queue(down', d, u))
           == EndView(ViewOf(cfg, s.pRow, d, u), Queue(s.down, d, u))
    {
    }
  }

  /** A row that the message brings, or that a push leaves alone, is as fresh as the message says. */
  lemma DeliverFresh(cfg: Config, s: State, c: nat, v: Srv, m: Down, seen': map<(nat, Srv), int>,
                     pushClock': map<(nat, Srv), int>)
    requires |s.place| == |s.log| && RowsFresh(cfg, s.log, s.place, s.pRow, s.seen, s.pushClock)
    requires SysClocks(cfg, s.seen, s.pushClock, s.sysClock) && c < |cfg.threads| && cfg.HasServer(v)
    requires GoodOne(s.log, s.place, ViewOf(cfg, s.pRow, c, v), ClockAt(s.seen, c, v), m)
    requires DownOk(cfg, s.log, s.place, c, v, |BgOf(s.bg, c, v.chan).saved|, m)
    requires seen' == s.seen[(c, v) := m.clock]
    requires pushClock' == if m.Push? then s.pushClock[(c, v) := m.clock] else s.pushClock
    ensures RowsFresh(cfg, s.log, s.place, NewRows(BgOf(s.bg, c, v.chan).saved, s.pOplog, s.pRow, c, m), seen',
                      pushClock')
  {
    hide RowFresh, BgOf, NewRows, DownOk, GoodOne, SysClocks, Fresh, ViewOf;
    InOrder(cfg, s, c, v, m);
    DownHome(cfg, s.log, s.place, c, v, |BgOf(s.bg, c, v.chan).saved|, m);
    NewRowsElsewhere(cfg, BgOf(s.bg, c, v.chan).saved, s.pOplog, s.pRow, c, v, m);
    var pRow' := NewRows(BgOf(s.bg, c, v.chan).saved, s.pOplog, s.pRow, c, m);
    forall w | w in pRow'
      ensures RowFresh(s.log, s.place, w.1, pRow'[w], ClockAt(pushClock', w.0, Home(cfg, w.1)),
                       ClockAt(seen', w.0, Home(cfg, w.1)))
    {
      hide RowsFresh;
      if w.0 == c && Home(cfg, w.1) == v {
        DeliverRow(cfg, s, c, v, m, w.1);
      } else {
        StillFresh(cfg, s, w);
      }
    }
  }

  lemma InOrder(cfg: Config, s: State, c: nat, v: Srv, m: Down)
    requires |s.place| == |s.log| && SysClocks(cfg, s.seen, s.pushClock, s.sysClock)
    requires c < |cfg.threads| && cfg.HasServer(v)
    requires GoodOne(s.log, s.place, ViewOf(cfg, s.pRow, c, v), ClockAt(s.seen, c, v), m)
    ensures ClockAt(s.pushClock, c, v) <= ClockAt(s.seen, c, v) <= m.clock
  {
    hide Fresh, ViewOf;
  }

  lemma DownHome(cfg: Config, log: seq<Upd>, place: seq<Place>, c: nat, v: Srv, upto: nat, m: Down)
    requires |place| == |log| && DownOk(cfg, log, place, c, v, upto, m)
    ensures m.Reply? ==> Home(cfg, m.key) == v
    ensures m.Push? ==> forall k :: k in m.rows ==> Home(cfg, k) == v
  {
    hide CopyOk;
  }

  lemma StillFresh(cfg: Config, s: State, w: (nat, Key))
    requires |s.place| == |s.log| && RowsFresh(cfg, s.log, s.place, s.pRow, s.seen, s.pushClock) && w in s.pRow
    ensures RowFresh(s.log, s.place, w.1, s.pRow[w], ClockAt(s.pushClock, w.0, Home(cfg, w.1)),
                     ClockAt(s.seen, w.0, Home(cfg, w.1)))
  {
    hide RowFresh;
  }

  lemma NewRowsElsewhere(cfg: Config, saved: seq<map<Key, Cell>>, pOplog: map<(nat, Key), Cell>,
                         pRow: map<(nat, Key), PRow>, c: nat, v: Srv, m: Down)
    requires m.Reply? ==> Home(cfg, m.key) == v
    requires m.Push? ==> forall k :: k in m.rows ==> Home(cfg, k) == v
    ensures var pRow' := NewRows(saved, pOplog, pRow, c, m);
      forall w :: w in pRow' && !(w.0 == c && Home(cfg, w.1) == v) ==> w in pRow && pRow'[w] == pRow[w]
  {
  }

  lemma DeliverRow(cfg: Config, s: State, c: nat, v: Srv, m: Down, key: Key)
    requires |s.place| == |s.log| && RowsFresh(cfg, s.log, s.place, s.pRow, s.seen, s.pushClock)
    requires ClockAt(s.pushClock, c, v) <= ClockAt(s.seen, c, v) <= m.clock && Home(cfg, key) == v
    requires GoodOne(s.log, s.place, ViewOf(cfg, s.pRow, c, v), ClockAt(s.seen, c, v), m)
    requires (c, key) in NewRows(BgOf(s.bg, c, v.chan).saved, s.pOplog, s.pRow, c, m)
    ensures var r := NewRows(BgOf(s.bg, c, v.chan).saved, s.pOplog, s.pRow, c, m)[(c, key)];
      RowFresh(s.log, s.place, key, r, if m.Push? then m.clock else ClockAt(s.pushClock, c, v), m.clock)
  {
    hide Fresh, BgOf;
    var r := NewRows(BgOf(s.bg, c, v.chan).saved, s.pOplog, s.pRow, c, m)[(c, key)];
    if m.Push? {
      assert key in ViewOf(cfg, s.pRow, c, v);
      assert Fresh(s.log, s.place, key, r.base, m.clock);
      ReadSteps.FreshDown(s.log, s.place, key, r.base, m.clock, r.clock);
    } else if key == m.key {
      ReadSteps.FreshDown(s.log, s.place, key, r.base, m.clock, ClockAt(s.pushClock, c, v));
    } else {
      assert (c, key) in s.pRow && r == s.pRow[(c, key)];
    }
  }

  lemma DeliverSys(cfg: Config, s: State, c: nat, v: Srv, clock: int, pushClock': map<(nat, Srv), int>)
    requires SysClocks(cfg, s.seen, s.pushClock, s.sysClock) && c < |cfg.threads| && cfg.HasServer(v)
    requires ClockAt(s.seen, c, v) <= clock
    requires pushClock' == s.pushClock[(c, v) := clock] || pushClock' == s.pushClock
    ensures SysClocks(cfg, s.seen[(c, v) := clock], pushClock', s.sysClock)
  {
    forall d: nat, u | d < |cfg.threads| && cfg.HasServer(u)
      ensures 0 <= SysClockOf(s.sysClock, d) <= ClockAt(pushClock', d, u) <= ClockAt(s.seen[(c, v) := clock], d, u)
    {
      assert 0 <= SysClockOf(s.sysClock, d) <= ClockAt(s.pushClock, d, u) <= ClockAt(s.seen, d, u);
    }
  }
}
