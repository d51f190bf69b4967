/** Flushing one thread oplog into the table oplog. */
module FlushSteps {
  import opened Rows
  import opened ServerSpec
  import opened Protocol
  import opened Invariant
  import opened Moves
  import UpdateSteps

  lemma FlushRowKeeps(cfg: Config, s: State, t: Thread, key: Key, indexed: bool)
    requires Inv(cfg, s) && MayFlush(cfg, s, t, key, indexed)
    ensures Inv(cfg, DoFlushRow(s, t, key, indexed))
  {
    FlushWhere(cfg, s, t, key, indexed);
    FlushTiming(cfg, s, t, key, indexed);
    FlushCaches(cfg, s, t, key, indexed);
    FlushValues(cfg, s, t, key, indexed);
    hide Where, Timing, Caches, Values;
  }

  /** The updates of the thread oplog, and no others, change place. */
  ghost predicate Flushed(log: seq<Upd>, place: seq<Place>, place': seq<Place>, t: Thread, key: Key, to: Place)
    requires |place'| == |place| == |log|
  {
    && (to == InTable || to == Gone)
    && (forall i {:trigger place[i]} {:trigger place'[i]} :: 0 <= i < |place| ==>
          if place[i] == InThread && log[i].thread == t && log[i].key == key then place'[i] == to
          else place'[i] == place[i])
  }

  lemma FlushPlaces(s: State, t: Thread, key: Key, indexed: bool)
    requires |s.place| == |s.log| && ThreadOplogs(s.log, s.place, s.tOplog) && (t, key) in s.tOplog
    ensures Flushed(s.log, s.place, DoFlushRow(s, t, key, indexed).place, t, key, if indexed then InTable else Gone)
  {
    var place' := DoFlushRow(s, t, key, indexed).place;
    var cell := s.tOplog[(t, key)];
    forall i | 0 <= i < |s.place|
      ensures i in cell.ids <==> s.place[i] == InThread && s.log[i].thread == t && s.log[i].key == key
    {
    }
  }


  lemma FlushedSame(log: seq<Upd>, place: seq<Place>, place': seq<Place>, t: Thread, key: Key, to: Place)
    requires |place'| == |place| == |log| && Flushed(log, place, place', t, key, to)
    ensures SameBgPlaces(place, place') && SameSentPlaces(place, place') && StillGone(place, place')
    ensures to == InTable ==> SameGonePlaces(place, place')
    ensures to == Gone ==> SameTablePlaces(place, place')
  {
  }

  // ---- Where ----

  lemma FlushWhere(cfg: Config, s: State, t: Thread, key: Key, indexed: bool)
    requires Where(cfg, s) && MayFlush(cfg, s, t, key, indexed)
    ensures Where(cfg, DoFlushRow(s, t, key, indexed))
  {
    hide ThreadOplogs, TableOplogs, Cancelled, Gathered, Batches, ServerRows, Flushed,
         SameBgPlaces, SameSentPlaces, StillGone, SameGonePlaces, SameTablePlaces;
    var s' := DoFlushRow(s, t, key, indexed);
    var to := if indexed then InTable else Gone;
    FlushPlaces(s, t, key, indexed);
    FlushedSame(s.log, s.place, s'.place, t, key, to);
    MoveGathered(cfg, s.log, s.place, s'.place, s.bg);
    MoveBatches(cfg, s.log, s.place, s'.place, s.bg);
    MoveServerRows(cfg, s.log, s.place, s'.place, s.srv);
    FlushThreadOplogs(s.log, s.place, s'.place, s.tOplog, t, key, to);
    if indexed {
      MoveCancelled(s.log, s.place, s'.place, s.gone);
      FlushToTable(s.log, s.place, s'.place, s.tOplog, s.pOplog, t, key);
    } else {
      MoveTableOplogs(s.log, s.place, s'.place, s.pOplog);
      ZeroToTable(s.log, s'.place, s.pOplog, (t.client, key));
      FlushToGone(s.log, s.place, s'.place, s.tOplog, s.gone, t, key);
    }
  }

  lemma FlushThreadOplogs(log: seq<Upd>, place: seq<Place>, place': seq<Place>, tOplog: map<(Thread, Key), Cell>,
                          t: Thread, key: Key, to: Place)
    requires |place'| == |place| == |log| && Flushed(log, place, place', t, key, to)
    requires ThreadOplogs(log, place, tOplog)
    ensures ThreadOplogs(log, place', tOplog - {(t, key)})
  {
  }

  lemma FlushToTable(log: seq<Upd>, place: seq<Place>, place': seq<Place>, tOplog: map<(Thread, Key), Cell>,
                     pOplog: map<(nat, Key), Cell>, t: Thread, key: Key)
    requires |place'| == |place| == |log| && Flushed(log, place, place', t, key, InTable)
    requires ThreadOplogs(log, place, tOplog) && TableOplogs(log, place, pOplog) && (t, key) in tOplog
    ensures TableOplogs(log, place',
              pOplog[(t.client, key) := Merge(Oplog(pOplog, (t.client, key)), tOplog[(t, key)])])
  {
    var pOplog' := pOplog[(t.client, key) := Merge(Oplog(pOplog, (t.client, key)), tOplog[(t, key)])];
    forall w, i: nat | w in pOplog' && i in pOplog'[w].ids
      ensures i < |place'| && place'[i] == InTable && w == (log[i].thread.client, log[i].key)
    {
      assert (w in pOplog && i in pOplog[w].ids) || i in tOplog[(t, key)].ids;
      assert i < |place|;
    }
    forall i | 0 <= i < |place'| && place'[i] == InTable
      ensures (log[i].thread.client, log[i].key) in pOplog' && i in pOplog'[(log[i].thread.client, log[i].key)].ids
    {
      assert place[i] == InTable || (log[i].thread, log[i].key) == (t, key);
    }
  }

  lemma ZeroToTable(log: seq<Upd>, place: seq<Place>, pOplog: map<(nat, Key), Cell>, w: (nat, Key))
    requires |place| == |log| && TableOplogs(log, place, pOplog)
    ensures TableOplogs(log, place, pOplog[w := Merge(Oplog(pOplog, w), ZERO)])
  {
    var pOplog' := pOplog[w := Merge(Oplog(pOplog, w), ZERO)];
    forall x, i: nat | x in pOplog' && i in pOplog'[x].ids
      ensures i < |place| && place[i] == InTable && x == (log[i].thread.client, log[i].key)
    {
      assert x in pOplog && i in pOplog[x].ids;
    }
  }

  lemma FlushToGone(log: seq<Upd>, place: seq<Place>, place': seq<Place>, tOplog: map<(Thread, Key), Cell>,
                    gone: map<Key, Cell>, t: Thread, key: Key)
    requires |place'| == |place| == |log| && Flushed(log, place, place', t, key, Gone)
    requires ThreadOplogs(log, place, tOplog) && Cancelled(log, place, gone) && (t, key) in tOplog
    requires forall col :: Val(tOplog[(t, key)].vals, col) == 0
    ensures Cancelled(log, place', gone[key := Merge(Oplog(gone, key), tOplog[(t, key)])])
  {
    var gone' := gone[key := Merge(Oplog(gone, key), tOplog[(t, key)])];
    forall k, i: nat | k in gone' && i in gone'[k].ids
      ensures i < |place'| && place'[i] == Gone && log[i].key == k
    {
      assert (k in gone && i in gone[k].ids) || i in tOplog[(t, key)].ids;
      assert i < |place|;
    }
    forall i | 0 <= i < |place'| && place'[i] == Gone
      ensures log[i].key in gone' && i in gone'[log[i].key].ids
    {
      assert place[i] == Gone || (log[i].thread, log[i].key) == (t, key);
    }
    forall k, col | k in gone' ensures Val(gone'[k].vals, col) == 0 {
      AddVal(Oplog(gone, key).vals, tOplog[(t, key)].vals, col);
    }
  }

  // ---- Timing ----

  lemma FlushTiming(cfg: Config, s: State, t: Thread, key: Key, indexed: bool)
    requires Where(cfg, s) && Timing(cfg, s) && MayFlush(cfg, s, t, key, indexed)
    ensures Timing(cfg, DoFlushRow(s, t, key, indexed))
  {
    hide ThreadOplogs, TableOplogs, Cancelled, Gathered, Batches, ServerRows, Flushed, LogOk,
         Clocks, Bgs, Flushes, Coverage, InTime, Network;
    var s' := DoFlushRow(s, t, key, indexed);
    var to := if indexed then InTable else Gone;
    assert |s.place| == |s.log|;
    FlushPlaces(s, t, key, indexed);
    FlushFlushes(cfg, s, t, key, indexed);
    FlushCoverage(cfg, s.log, s.place, s'.place, s.ticks, s.tIndex, s'.tIndex, s.sIndex, s.bg, t, key, to);
    FlushInTime(cfg, s, s'.place, t, key, to);
  }

  lemma FlushTable(cfg: Config, s: State, t: Thread, key: Key)
    requires Flushes(cfg, s.pc, s.tOplog, s.tIndex, s.tCache) && (t, key) in s.tOplog
    ensures key.table < cfg.tables
  {
    assert (t, key) in s.tOplog.Keys;
  }

  lemma FlushFlushes(cfg: Config, s: State, t: Thread, key: Key, indexed: bool)
    requires Flushes(cfg, s.pc, s.tOplog, s.tIndex, s.tCache) && MayFlush(cfg, s, t, key, indexed)
    ensures var s' := DoFlushRow(s, t, key, indexed); Flushes(cfg, s'.pc, s'.tOplog, s'.tIndex, s'.tCache)
  {
    FlushTable(cfg, s, t, key);
    if indexed {
      UpdateSteps.IndexOne(cfg, s.pc, s.tIndex, t, key);
    }
    FewerHeld(cfg, s.pc, s.tOplog, s.tCache, (t, key));
    hide Held, Indexed, PcFine;
  }

  lemma FewerHeld(cfg: Config, pc: map<Thread, Pc>, tOplog: map<(Thread, Key), Cell>,
                  tCache: map<(Thread, Key), Cell>, w: (Thread, Key))
    requires Held(cfg, pc, tOplog.Keys) && Held(cfg, pc, tCache.Keys)
    ensures Held(cfg, pc, (tOplog - {w}).Keys) && Held(cfg, pc, (tCache - {w}).Keys)
  {
    hide MayHold;
  }

  /** What moves to the table oplog is in the thread's index, and the thread has not ticked since. */
  lemma FlushCoverage(cfg: Config, log: seq<Upd>, place: seq<Place>, place': seq<Place>, ticks: map<Thread, nat>,
                      tIndex: map<Thread, set<Key>>, tIndex': map<Thread, set<Key>>, sIndex: map<nat, set<Key>>,
                      bg: map<(nat, nat), Bg>, t: Thread, key: Key, to: Place)
    requires |place'| == |place| == |log| && Flushed(log, place, place', t, key, to)
    requires Coverage(cfg, log, place, ticks, tIndex, sIndex, bg)
    requires to == InTable ==> key in Index(tIndex', t)
    requires forall o :: Index(tIndex, o) <= Index(tIndex', o)
    ensures Coverage(cfg, log, place', ticks, tIndex', sIndex, bg)
  {
    forall i | 0 <= i < |place'| && place'[i] == InTable
      ensures Covered(cfg, log[i], ticks, tIndex', sIndex, bg)
    {
      if place[i] == InTable {
        assert Covered(cfg, log[i], ticks, tIndex, sIndex, bg);
      }
    }
  }

  lemma FlushInTime(cfg: Config, s: State, place': seq<Place>, t: Thread, key: Key, to: Place)
    requires |place'| == |s.place| == |s.log| && Flushed(s.log, s.place, place', t, key, to)
    requires InTime(cfg, s.log, s.place, s.bg) && Bgs(cfg, s.posted, s.bg)
    requires Clocks(cfg, s.clock, s.pc, s.ticks, s.posted) && cfg.HasThread(t)
    requires Coverage(cfg, s.log, s.place, s.ticks, s.tIndex, s.sIndex, s.bg)
    ensures InTime(cfg, s.log, place', s.bg)
  {
    var p := Chan(cfg, key);
    assert cfg.HasServer(cfg.home(key));
    assert BgFine(cfg, Posted(s.posted, t.client, p), BgOf(s.bg, t.client, p), p);
    assert PostedBy(cfg, s.ticks, s.posted, t);
    hide Clocks, Bgs;
    forall i | 0 <= i < |place'|
      ensures BgFor(cfg, s.bg, s.log[i]).hist != [] && InTimeAt(place'[i], s.log[i], BgFor(cfg, s.bg, s.log[i]))
    {
      assert InTimeAt(s.place[i], s.log[i], BgFor(cfg, s.bg, s.log[i]));
      if place'[i] != s.place[i] {
        assert Clock(s.ticks, t) <= s.log[i].clock;
      }
    }
  }

  // ---- Caches ----

  lemma FlushCaches(cfg: Config, s: State, t: Thread, key: Key, indexed: bool)
    requires Where(cfg, s) && Caches(cfg, s) && Values(cfg, s) && MayFlush(cfg, s, t, key, indexed)
    ensures Caches(cfg, DoFlushRow(s, t, key, indexed))
  {
    hide ThreadOplogs, TableOplogs, Cancelled, Gathered, Batches, ServerRows, Flushed, LogOk, AllOk, AllBgCells,
         ServerCells, Copies, PRows, Downstream, ServerKeys, Coherent, RowsFresh, SysClocks, ThreadRows,
         SameBgPlaces, SameSentPlaces, StillGone, SameGonePlaces, SameTablePlaces;
    var s' := DoFlushRow(s, t, key, indexed);
    var to := if indexed then InTable else Gone;
    var cell := s.tOplog[(t, key)];
    FlushPlaces(s, t, key, indexed);
    FlushedSame(s.log, s.place, s'.place, t, key, to);
    MoveCopies(cfg, s.log, s.place, s'.place, s.bg, s.down);
    MoveDownstream(cfg, s.log, s.place, s'.place, s.pRow, s.seen, s.down, s.srv);
    MoveRowsFresh(cfg, s.log, s.place, s'.place, s.pRow, s.seen, s.pushClock);
    FlushThreadRows(cfg, s, t, key, indexed);
    if indexed {
      UpdateSteps.MergeRowViews(cfg, s.pRow, t.client, key, cell);
      SameViews(cfg, s.log, s'.place, s.pRow, s'.pRow, s.seen, s.down, s.srv);
      UpdateSteps.SameCoherent(cfg, s.pRow, s'.pRow, s.down, s.srv);
      UpdateSteps.MergeRowFresh(cfg, s.log, s'.place, s.pRow, s.seen, s.pushClock, t.client, key, cell);
      FlushPRows(cfg, s.log, s.place, s'.place, s.tOplog, s.bg, s.pRow, t, key);
    } else {
      FlushedLeft(s.log, s.place, s'.place, t, key);
      MovePRows(cfg, s.log, s.place, s'.place, s.bg, s.pRow);
    }
  }

  lemma FlushedLeft(log: seq<Upd>, place: seq<Place>, place': seq<Place>, t: Thread, key: Key)
    requires |place'| == |place| == |log| && Flushed(log, place, place', t, key, Gone)
    ensures forall i :: 0 <= i < |place| ==> Left(place'[i]) == Left(place[i])
  {
  }

  lemma SameViews(cfg: Config, log: seq<Upd>, place: seq<Place>, pRow: map<(nat, Key), PRow>,
                  pRow': map<(nat, Key), PRow>, seen: map<(nat, Srv), int>, down: map<(nat, Srv), seq<Down>>,
                  srv: map<Srv, Server>)
    requires |place| == |log| && Downstream(cfg, log, place, pRow, seen, down, srv)
    requires forall c, v :: ViewOf(cfg, pRow', c, v) == ViewOf(cfg, pRow, c, v)
    ensures Downstream(cfg, log, place, pRow', seen, down, srv)
  {
    hide Good, ViewOf, EndClock;
  }

  lemma FlushThreadRows(cfg: Config, s: State, t: Thread, key: Key, indexed: bool)
    requires |s.place| == |s.log| && StillGone(s.place, DoFlushRow(s, t, key, indexed).place)
    requires ThreadRows(cfg, s.log, s.place, s.clock, s.pc, s.ticks, s.tOplog, s.tCache)
    ensures var s' := DoFlushRow(s, t, key, indexed);
      ThreadRows(cfg, s'.log, s'.place, s'.clock, s'.pc, s'.ticks, s'.tOplog, s'.tCache)
  {
    hide ThreadRow;
    var s' := DoFlushRow(s, t, key, indexed);
    forall w | w in s'.tCache && PcOf(s.pc, w.0) == Running
      ensures ThreadRow(cfg, s.log, s'.place, s.clock, s.ticks, w.0, w.1, Oplog(s'.tOplog, w), s'.tCache[w])
    {
      assert w in s.tCache && Oplog(s'.tOplog, w) == Oplog(s.tOplog, w);
      MoveThreadRow(cfg, s.log, s.place, s'.place, s.clock, s.ticks, w.0, w.1, Oplog(s.tOplog, w), s.tCache[w]);
    }
  }

  lemma FlushPRows(cfg: Config, log: seq<Upd>, place: seq<Place>, place': seq<Place>,
                   tOplog: map<(Thread, Key), Cell>, bg: map<(nat, nat), Bg>, pRow: map<(nat, Key), PRow>,
                   t: Thread, key: Key)
    requires |place'| == |place| == |log| && Flushed(log, place, place', t, key, InTable)
    requires ThreadOplogs(log, place, tOplog) && (t, key) in tOplog && AllOk(log, tOplog)
    requires PRows(cfg, log, place, bg, pRow)
    ensures PRows(cfg, log, place', bg, MergeRow(pRow, t.client, key, tOplog[(t, key)]))
  {
    hide PRowOk, Flushed, SameSentPlaces;
    var pRow' := MergeRow(pRow, t.client, key, tOplog[(t, key)]);
    FlushedSame(log, place, place', t, key, InTable);
    forall w | w in pRow'
      ensures w.0 < |cfg.threads|
      ensures PRowOk(log, place', w.0, w.1, |BgOf(bg, w.0, Chan(cfg, w.1)).saved|, pRow'[w])
    {
      var upto := |BgOf(bg, w.0, Chan(cfg, w.1)).saved|;
      if w == (t.client, key) {
        FlushPRow(log, place, place', tOplog, t, key, upto, pRow[w]);
      } else {
        FlushOther(log, place, place', t, key, w.0, w.1);
        MovePRow(log, place, place', w.0, w.1, upto, pRow[w]);
      }
    }
  }

  lemma FlushOther(log: seq<Upd>, place: seq<Place>, place': seq<Place>, t: Thread, key: Key, c: nat, k: Key)
    requires |place'| == |place| == |log| && Flushed(log, place, place', t, key, InTable)
    requires (c, k) != (t.client, key)
    ensures forall i :: 0 <= i < |place| && log[i].key == k && log[i].thread.client == c
              ==> Left(place'[i]) == Left(place[i])
  {
  }

  lemma FlushPRow(log: seq<Upd>, place: seq<Place>, place': seq<Place>, tOplog: map<(Thread, Key), Cell>,
                  t: Thread, key: Key, upto: nat, r: PRow)
    requires |place'| == |place| == |log| && Flushed(log, place, place', t, key, InTable)
    requires ThreadOplogs(log, place, tOplog) && (t, key) in tOplog && AllOk(log, tOplog)
    requires PRowOk(log, place, t.client, key, upto, r)
    ensures PRowOk(log, place', t.client, key, upto, r.(cell := Merge(r.cell, tOplog[(t, key)])))
  {
    var cell := tOplog[(t, key)];
    FlushedSame(log, place, place', t, key, InTable);
    MoveBase(log, place, place', t.client, key, r.base, r.ver);
    assert r.cell.ids !! cell.ids by {
      forall i: nat | i in r.cell.ids ensures i < |place| && place[i] != InThread {
      }
    }
    MergeOk(log, r.cell, cell);
    hide CellOk, BaseOk;
    forall i: nat | i in r.cell.ids + cell.ids
      ensures i < |place'|
      ensures i in r.base || (log[i].key == key && log[i].thread.client == t.client && Left(place'[i]))
    {
      assert i in r.cell.ids || i in cell.ids;
      assert i < |place|;
    }
    forall i: nat | i < |place'| && log[i].key == key && log[i].thread.client == t.client && Left(place'[i])
      ensures i in r.cell.ids + cell.ids
    {
      assert Left(place[i]) || place[i] == InThread;
    }
  }

  // ---- Values ----

  lemma FlushValues(cfg: Config, s: State, t: Thread, key: Key, indexed: bool)
    requires Where(cfg, s) && Values(cfg, s) && MayFlush(cfg, s, t, key, indexed)
    ensures Values(cfg, DoFlushRow(s, t, key, indexed))
  {
    hide ThreadOplogs, TableOplogs, Cancelled, Gathered, Batches, ServerRows, AllOk, AllBgCells,
         ServerCells, CellOk;
    var w, cell := (t.client, key), s.tOplog[(t, key)];
    OplogOk(s.log, s.pOplog, w);
    OplogOk(s.log, s.gone, key);
    OplogOk(s.log, s.tOplog, (t, key));
    FlushApart(s.log, s.place, s.tOplog, s.pOplog, s.gone, t, key);
    AllOkLess(s.log, s.tOplog, (t, key));
    ZeroOk(s.log);
    if indexed {
      MergeOk(s.log, Oplog(s.pOplog, w), cell);
      AllOkSet(s.log, s.pOplog, w, Merge(Oplog(s.pOplog, w), cell));
    } else {
      MergeOk(s.log, Oplog(s.gone, key), cell);
      AllOkSet(s.log, s.gone, key, Merge(Oplog(s.gone, key), cell));
      MergeOk(s.log, Oplog(s.pOplog, w), ZERO);
      AllOkSet(s.log, s.pOplog, w, Merge(Oplog(s.pOplog, w), ZERO));
    }
  }

  lemma AllOkLess<K(!new)>(log: seq<Upd>, m: map<K, Cell>, k: K)
    requires AllOk(log, m)
    ensures AllOk(log, m - {k})
  {
    hide CellOk;
  }

  lemma FlushApart(log: seq<Upd>, place: seq<Place>, tOplog: map<(Thread, Key), Cell>,
                   pOplog: map<(nat, Key), Cell>, gone: map<Key, Cell>, t: Thread, key: Key)
    requires |place| == |log| && ThreadOplogs(log, place, tOplog) && (t, key) in tOplog
    requires TableOplogs(log, place, pOplog) && Cancelled(log, place, gone)
    ensures Oplog(pOplog, (t.client, key)).ids !! tOplog[(t, key)].ids
    ensures Oplog(gone, key).ids !! tOplog[(t, key)].ids
  {
    forall i: nat | i in tOplog[(t, key)].ids
      ensures i !in Oplog(pOplog, (t.client, key)).ids && i !in Oplog(gone, key).ids
    {
      assert place[i] == InThread;
    }
  }
}
