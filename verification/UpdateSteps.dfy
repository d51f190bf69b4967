/** Updates, thread flushes and reads: the steps of application threads outside the clock. */
module UpdateSteps {
  import opened Rows
  import opened VectorClocks
  import opened ServerSpec
  import opened Protocol
  import opened Invariant

  // ---- A new update is logged ----

  lemma AppendGathered(cfg: Config, log: seq<Upd>, place: seq<Place>, bg: map<(nat, nat), Bg>, u: Upd, pl: Place)
    requires |place| == |log| && Gathered(cfg, log, place, bg) && pl != InBg
    ensures Gathered(cfg, log + [u], place + [pl], bg)
  {
    var log', place' := log + [u], place + [pl];
    forall i | 0 <= i < |place'| && place'[i] == InBg
      ensures var b := BgFor(cfg, bg, log'[i]);
        b.pc.Drain? && log'[i].key in b.pc.got && i in b.pc.got[log'[i].key].ids
    {
      assert place[i] == InBg && log'[i] == log[i];
    }
    forall c: nat, p: nat, k, i: nat | cfg.HasBg(c, p) && BgOf(bg, c, p).pc.Drain?
                                  && k in BgOf(bg, c, p).pc.got && i in BgOf(bg, c, p).pc.got[k].ids
      ensures i < |place'| && place'[i] == InBg
      ensures log'[i].thread.client == c && log'[i].key == k && Chan(cfg, k) == p
    {
      assert i < |place|;
      assert place'[i] == place[i] && log'[i] == log[i];
    }
  }

  lemma AppendBatches(cfg: Config, log: seq<Upd>, place: seq<Place>, bg: map<(nat, nat), Bg>, u: Upd, pl: Place)
    requires |place| == |log| && Batches(cfg, log, place, bg) && !pl.Sent?
    ensures Batches(cfg, log + [u], place + [pl], bg)
  {
    var log', place' := log + [u], place + [pl];
    forall i | 0 <= i < |place'| && place'[i].Sent?
      ensures var b := BgFor(cfg, bg, log'[i]);
        var n := place'[i].batch;
        n < |b.saved| && log'[i].key in b.saved[n] && i in b.saved[n][log'[i].key].ids
    {
      assert place'[i] == place[i] && log'[i] == log[i];
    }
    forall c: nat, p: nat, n, k, i: nat | cfg.HasBg(c, p) && 0 <= n < |BgOf(bg, c, p).saved|
                                     && k in BgOf(bg, c, p).saved[n] && i in BgOf(bg, c, p).saved[n][k].ids
      ensures i < |place'| && place'[i] == Sent(n)
      ensures log'[i].thread.client == c && log'[i].key == k && Chan(cfg, k) == p
    {
      assert i < |place|;
      assert place'[i] == place[i] && log'[i] == log[i];
    }
  }

  lemma AppendServerRows(cfg: Config, log: seq<Upd>, place: seq<Place>, srv: map<Srv, Server>, u: Upd, pl: Place)
    requires |place| == |log| && ServerRows(cfg, log, place, srv) && !pl.Sent?
    ensures ServerRows(cfg, log + [u], place + [pl], srv)
  {
    var log', place' := log + [u], place + [pl];
    forall i | 0 <= i < |place'| && place'[i].Sent?
      ensures var s := SrvOf(cfg, srv, Home(cfg, log'[i].key));
        place'[i].batch < s.Ver(log'[i].thread.client) ==> i in s.RowAt(log'[i].key).ids
    {
      assert place'[i] == place[i] && log'[i] == log[i];
    }
    forall v, k, i: nat | cfg.HasServer(v) && i in SrvOf(cfg, srv, v).RowAt(k).ids
      ensures i < |place'| && place'[i].Sent? && log'[i].key == k && Home(cfg, k) == v
      ensures place'[i].batch < SrvOf(cfg, srv, v).Ver(log'[i].thread.client)
    {
      assert i < |place|;
      assert place'[i] == place[i] && log'[i] == log[i];
    }
  }

  lemma AppendThreadOplogs(log: seq<Upd>, place: seq<Place>, tOplog: map<(Thread, Key), Cell>, u: Upd, pl: Place)
    requires |place| == |log| && ThreadOplogs(log, place, tOplog) && pl != InThread
    ensures ThreadOplogs(log + [u], place + [pl], tOplog)
  {
    var log', place' := log + [u], place + [pl];
    forall i | 0 <= i < |place'| && place'[i] == InThread
      ensures (log'[i].thread, log'[i].key) in tOplog && i in tOplog[(log'[i].thread, log'[i].key)].ids
    {
      assert place'[i] == place[i] && log'[i] == log[i];
    }
    forall w, i: nat | w in tOplog && i in tOplog[w].ids
      ensures i < |place'| && place'[i] == InThread && w == (log'[i].thread, log'[i].key)
    {
      assert i < |place|;
      assert place'[i] == place[i] && log'[i] == log[i];
    }
  }

  lemma AppendTableOplogs(log: seq<Upd>, place: seq<Place>, pOplog: map<(nat, Key), Cell>, u: Upd, pl: Place)
    requires |place| == |log| && TableOplogs(log, place, pOplog) && pl != InTable
    ensures TableOplogs(log + [u], place + [pl], pOplog)
  {
    var log', place' := log + [u], place + [pl];
    forall i | 0 <= i < |place'| && place'[i] == InTable
      ensures (log'[i].thread.client, log'[i].key) in pOplog
      ensures i in pOplog[(log'[i].thread.client, log'[i].key)].ids
    {
      assert place'[i] == place[i] && log'[i] == log[i];
    }
    forall w, i: nat | w in pOplog && i in pOplog[w].ids
      ensures i < |place'| && place'[i] == InTable && w == (log'[i].thread.client, log'[i].key)
    {
      assert i < |place|;
      assert place'[i] == place[i] && log'[i] == log[i];
    }
  }

  lemma AppendCancelled(log: seq<Upd>, place: seq<Place>, gone: map<Key, Cell>, u: Upd, pl: Place)
    requires |place| == |log| && Cancelled(log, place, gone) && pl != Gone
    ensures Cancelled(log + [u], place + [pl], gone)
  {
    var log', place' := log + [u], place + [pl];
    forall i | 0 <= i < |place'| && place'[i] == Gone
      ensures log'[i].key in gone && i in gone[log'[i].key].ids
    {
      assert place'[i] == place[i] && log'[i] == log[i];
    }
    forall k, i: nat | k in gone && i in gone[k].ids
      ensures i < |place'| && place'[i] == Gone && log'[i].key == k
    {
      assert i < |place|;
      assert place'[i] == place[i] && log'[i] == log[i];
    }
  }

  /** Every server's minimum clock has been reached by every thread. */
  lemma Reached(cfg: Config, s: State, t: Thread, v: Srv)
    requires Clocks(cfg, s.clock, s.pc, s.ticks, s.posted) && Bgs(cfg, s.posted, s.bg)
    requires Network(cfg, s.bg, s.up, s.srv)
    requires cfg.HasThread(t) && cfg.HasServer(v)
    ensures SrvOf(cfg, s.srv, v).vc.min <= Clock(s.ticks, t)
  {
    var c := t.client;
    var b := BgOf(s.bg, c, v.chan);
    assert cfg.HasBg(c, v.chan);
    assert BgFine(cfg, Posted(s.posted, c, v.chan), b, v.chan);
    assert Link(cfg, c, v, b, SrvOf(cfg, s.srv, v), Queue(s.up, c, v));
    assert b.hist[SrvOf(cfg, s.srv, v).Ver(c)] <= b.hist[|b.saved|];
    assert PostedBy(cfg, s.ticks, s.posted, t);
  }

  lemma FreshAppend(log: seq<Upd>, place: seq<Place>, u: Upd, pl: Place, key: Key, ids: set<nat>, m: int)
    requires |place| == |log| && Fresh(log, place, key, ids, m) && m <= u.clock
    ensures Fresh(log + [u], place + [pl], key, ids, m)
  {
    var log', place' := log + [u], place + [pl];
    forall i | 0 <= i < |log'| && log'[i].key == key && log'[i].clock < m ensures i in ids || place'[i] == Gone {
      assert log'[i] == log[i] && place'[i] == place[i];
    }
  }

  lemma {:induction false} GoodEndClock(log: seq<Upd>, place: seq<Place>, view: map<Key, set<nat>>, clock: int,
                                        q: seq<Down>)
    requires |place| == |log| && Good(log, place, view, clock, q)
    ensures clock <= EndClock(clock, q)
    decreases |q|
  {
    if q != [] {
      GoodEndClock(log, place, Seen(view, q[0]), q[0].clock, q[1..]);
    }
  }

  lemma {:induction false} GoodAppend(log: seq<Upd>, place: seq<Place>, u: Upd, pl: Place,
                                      view: map<Key, set<nat>>, clock: int, q: seq<Down>)
    requires |place| == |log| && Good(log, place, view, clock, q) && EndClock(clock, q) <= u.clock
    ensures Good(log + [u], place + [pl], view, clock, q)
    decreases |q|
  {
    if q != [] {
      GoodEndClock(log, place, Seen(view, q[0]), q[0].clock, q[1..]);
      GoodAppend(log, place, u, pl, Seen(view, q[0]), q[0].clock, q[1..]);
      assert GoodOne(log + [u], place + [pl], view, clock, q[0]) by {
        forall k, ids | Fresh(log, place, k, ids, q[0].clock)
          ensures Fresh(log + [u], place + [pl], k, ids, q[0].clock)
        {
          FreshAppend(log, place, u, pl, k, ids, q[0].clock);
        }
      }
    }
  }

  lemma AppendDownstream(cfg: Config, s: State, u: Upd, pl: Place, pRow: map<(nat, Key), PRow>)
    requires Timing(cfg, s) && Downstream(cfg, s.log, s.place, s.pRow, s.seen, s.down, s.srv)
    requires cfg.HasThread(u.thread) && u.clock == Clock(s.ticks, u.thread)
    requires forall c, v :: ViewOf(cfg, pRow, c, v) == ViewOf(cfg, s.pRow, c, v)
    ensures Downstream(cfg, s.log + [u], s.place + [pl], pRow, s.seen, s.down, s.srv)
  {
    hide Clocks, Bgs, Flushes, Coverage, InTime, Network;
    forall c: nat, v | c < |cfg.threads| && cfg.HasServer(v)
      ensures Good(s.log + [u], s.place + [pl], ViewOf(cfg, pRow, c, v), ClockAt(s.seen, c, v), Queue(s.down, c, v))
    {
      Reached(cfg, s, u.thread, v);
      GoodAppend(s.log, s.place, u, pl, ViewOf(cfg, s.pRow, c, v), ClockAt(s.seen, c, v), Queue(s.down, c, v));
    }
  }

  lemma BaseAppend(log: seq<Upd>, place: seq<Place>, u: Upd, pl: Place, c: nat, key: Key, base: set<nat>, ver: nat)
    requires |place| == |log| && BaseOk(log, place, c, key, base, ver) && !pl.Sent?
    ensures BaseOk(log + [u], place + [pl], c, key, base, ver)
  {
    var log', place' := log + [u], place + [pl];
    forall i | 0 <= i < |place'| && log'[i].key == key && log'[i].thread.client == c
               && place'[i].Sent? && place'[i].batch < ver
      ensures i in base
    {
      assert log'[i] == log[i] && place'[i] == place[i];
    }
    forall i: nat | i in base
      ensures i < |place'| && log'[i].key == key && place'[i].Sent?
      ensures log'[i].thread.client == c ==> place'[i].batch < ver
    {
      assert log'[i] == log[i] && place'[i] == place[i];
    }
  }

  lemma AppendCopies(cfg: Config, log: seq<Upd>, place: seq<Place>, bg: map<(nat, nat), Bg>,
                     down: map<(nat, Srv), seq<Down>>, u: Upd, pl: Place)
    requires |place| == |log| && Copies(cfg, log, place, bg, down) && !pl.Sent?
    ensures Copies(cfg, log + [u], place + [pl], bg, down)
  {
    forall c: nat, k, ver: nat, upto: nat, copy | CopyOk(log, place, c, k, ver, upto, copy)
      ensures CopyOk(log + [u], place + [pl], c, k, ver, upto, copy)
    {
      BaseAppend(log, place, u, pl, c, k, copy.ids, ver);
      AppendOk(log, u);
    }
    forall c: nat, v, n | c < |cfg.threads| && cfg.HasServer(v) && 0 <= n < |Queue(down, c, v)|
      ensures DownOk(cfg, log + [u], place + [pl], c, v, |BgOf(bg, c, v.chan).saved|, Queue(down, c, v)[n])
    {
      assert DownOk(cfg, log, place, c, v, |BgOf(bg, c, v.chan).saved|, Queue(down, c, v)[n]);
    }
  }

  lemma PRowAppend(log: seq<Upd>, place: seq<Place>, u: Upd, pl: Place, c: nat, key: Key, upto: nat, r: PRow)
    requires |place| == |log| && PRowOk(log, place, c, key, upto, r) && !pl.Sent?
    requires !Left(pl) || (u.thread.client, u.key) != (c, key)
    ensures PRowOk(log + [u], place + [pl], c, key, upto, r)
  {
    var log', place' := log + [u], place + [pl];
    BaseAppend(log, place, u, pl, c, key, r.base, r.ver);
    AppendOk(log, u);
    forall i | 0 <= i < |place'| && log'[i].key == key && log'[i].thread.client == c && Left(place'[i])
      ensures i in r.cell.ids
    {
      assert log'[i] == log[i] && place'[i] == place[i];
    }
    forall i: nat | i in r.cell.ids
      ensures i < |place'| && (i in r.base || (log'[i].key == key && log'[i].thread.client == c && Left(place'[i])))
    {
      assert log'[i] == log[i] && place'[i] == place[i];
    }
  }

  /** The update reaches the cached row in the same step as the table oplog. */
  lemma PRowInc(log: seq<Upd>, place: seq<Place>, u: Upd, c: nat, key: Key, upto: nat, r: PRow)
    requires |place| == |log| && PRowOk(log, place, c, key, upto, r)
    requires (u.thread.client, u.key) == (c, key)
    ensures PRowOk(log + [u], place + [InTable], c, key, upto, r.(cell := Merge(r.cell, Cell(u.delta, {|log|}))))
  {
    var log', place' := log + [u], place + [InTable];
    var r' := r.(cell := Merge(r.cell, Cell(u.delta, {|log|})));
    BaseAppend(log, place, u, InTable, c, key, r.base, r.ver);
    AppendOk(log, u);
    MergeOk(log', r.cell, Cell(u.delta, {|log|}));
    forall i | 0 <= i < |place'| && log'[i].key == key && log'[i].thread.client == c && Left(place'[i])
      ensures i in r'.cell.ids
    {
      assert i < |log| ==> log'[i] == log[i] && place'[i] == place[i];
    }
    forall i: nat | i in r'.cell.ids
      ensures i < |place'| && (i in r.base || (log'[i].key == key && log'[i].thread.client == c && Left(place'[i])))
    {
      assert i < |log| ==> log'[i] == log[i] && place'[i] == place[i];
    }
  }

  lemma AppendRowsFresh(cfg: Config, s: State, u: Upd, pl: Place)
    requires |s.place| == |s.log|
    requires RowsFresh(cfg, s.log, s.place, s.pRow, s.seen, s.pushClock)
    requires SysClocks(cfg, s.seen, s.pushClock, s.sysClock)
    requires forall c: nat, v :: c < |cfg.threads| && cfg.HasServer(v) ==> ClockAt(s.seen, c, v) <= u.clock
    requires forall w :: w in s.pRow ==> w.0 < |cfg.threads|
    ensures RowsFresh(cfg, s.log + [u], s.place + [pl], s.pRow, s.seen, s.pushClock)
  {
    hide Fresh;
    forall w | w in s.pRow
      ensures RowFresh(s.log + [u], s.place + [pl], w.1, s.pRow[w], ClockAt(s.pushClock, w.0, Home(cfg, w.1)),
                       ClockAt(s.seen, w.0, Home(cfg, w.1)))
    {
      assert cfg.HasServer(Home(cfg, w.1));
      FreshAppend(s.log, s.place, u, pl, w.1, s.pRow[w].base, s.pRow[w].clock);
      FreshAppend(s.log, s.place, u, pl, w.1, s.pRow[w].base, ClockAt(s.pushClock, w.0, Home(cfg, w.1)));
    }
  }

  lemma SeenReached(cfg: Config, s: State, t: Thread)
    requires Timing(cfg, s) && Downstream(cfg, s.log, s.place, s.pRow, s.seen, s.down, s.srv) && cfg.HasThread(t)
    ensures forall c: nat, v :: c < |cfg.threads| && cfg.HasServer(v) ==> ClockAt(s.seen, c, v) <= Clock(s.ticks, t)
  {
    hide Clocks, Bgs, Flushes, Coverage, InTime, Network;
    forall c: nat, v | c < |cfg.threads| && cfg.HasServer(v)
      ensures ClockAt(s.seen, c, v) <= Clock(s.ticks, t)
    {
      Reached(cfg, s, t, v);
    }
  }

  lemma AppendThreadRow(cfg: Config, s: State, u: Upd, pl: Place, t: Thread, key: Key, mine: Cell, row: Cell)
    requires |s.place| == |s.log|
    requires ThreadRow(cfg, s.log, s.place, s.clock, s.ticks, t, key, mine, row)
    requires cfg.HasThread(u.thread) && u.clock == Clock(s.ticks, u.thread)
    ensures ThreadRow(cfg, s.log + [u], s.place + [pl], s.clock, s.ticks, t, key, mine, row)
  {
    AppendOk(s.log, u);
    FreshAppend(s.log, s.place, u, pl, key, row.ids, StalestAt(cfg, s.clock, t, key.table));
  }

  lemma AppendCells(cfg: Config, s: State, u: Upd)
    requires Values(cfg, s)
    ensures CellsOk(cfg, s.log + [u], s.tOplog, s.gone, s.pOplog, s.bg)
    ensures ServerCells(cfg, s.log + [u], s.srv)
  {
    AppendOk(s.log, u);
  }

  lemma MergeRowViews(cfg: Config, pRow: map<(nat, Key), PRow>, c: nat, key: Key, cell: Cell)
    ensures forall d, v :: ViewOf(cfg, MergeRow(pRow, c, key, cell), d, v) == ViewOf(cfg, pRow, d, v)
  {
    forall d, v ensures ViewOf(cfg, MergeRow(pRow, c, key, cell), d, v) == ViewOf(cfg, pRow, d, v) {
    }
  }

  // ---- Inc ----

  lemma IncKeeps(cfg: Config, s: State, t: Thread, key: Key, delta: Row)
    requires Inv(cfg, s) && MayUpdate(cfg, s, t, key)
    ensures Inv(cfg, DoInc(s, t, key, delta))
  {
    IncWhere(cfg, s, t, key, delta);
    IncTiming(cfg, s, t, key, delta);
    IncCaches(cfg, s, t, key, delta);
    IncValues(cfg, s, t, key, delta);
    hide Where, Timing, Caches, Values;
  }

  lemma IncWhere(cfg: Config, s: State, t: Thread, key: Key, delta: Row)
    requires Where(cfg, s) && MayUpdate(cfg, s, t, key)
    ensures Where(cfg, DoInc(s, t, key, delta))
  {
    hide ThreadOplogs, TableOplogs, Cancelled, Gathered, Batches, ServerRows;
    var u := Upd(t, Clock(s.clock, t), key, delta);
    AppendThreadOplogs(s.log, s.place, s.tOplog, u, InTable);
    AppendCancelled(s.log, s.place, s.gone, u, InTable);
    AppendGathered(cfg, s.log, s.place, s.bg, u, InTable);
    AppendBatches(cfg, s.log, s.place, s.bg, u, InTable);
    AppendServerRows(cfg, s.log, s.place, s.srv, u, InTable);
    IncTableOplogs(s.log, s.place, s.pOplog, u);
    AppendLog(cfg, s.log, s.place, u, InTable);
    hide LogOk;
  }

  lemma AppendLog(cfg: Config, log: seq<Upd>, place: seq<Place>, u: Upd, pl: Place)
    requires LogOk(cfg, log, place) && cfg.HasThread(u.thread) && u.key.table < cfg.tables
    ensures LogOk(cfg, log + [u], place + [pl])
  {
  }

  lemma IncTableOplogs(log: seq<Upd>, place: seq<Place>, pOplog: map<(nat, Key), Cell>, u: Upd)
    requires |place| == |log| && TableOplogs(log, place, pOplog)
    ensures var w := (u.thread.client, u.key);
      TableOplogs(log + [u], place + [InTable], pOplog[w := Merge(Oplog(pOplog, w), Cell(u.delta, {|log|}))])
  {
    var mine := (u.thread.client, u.key);
    var log', place' := log + [u], place + [InTable];
    var pOplog' := pOplog[mine := Merge(Oplog(pOplog, mine), Cell(u.delta, {|log|}))];
    forall i | 0 <= i < |place'| && place'[i] == InTable
      ensures (log'[i].thread.client, log'[i].key) in pOplog'
      ensures i in pOplog'[(log'[i].thread.client, log'[i].key)].ids
    {
      assert i < |log| ==> log'[i] == log[i] && place'[i] == place[i];
    }
    forall w, i: nat | w in pOplog' && i in pOplog'[w].ids
      ensures i < |place'| && place'[i] == InTable && w == (log'[i].thread.client, log'[i].key)
    {
      assert (w in pOplog && i in pOplog[w].ids) || (i == |log| && w == mine);
      assert i < |log| ==> log'[i] == log[i] && place'[i] == place[i];
    }
  }

  lemma IncTiming(cfg: Config, s: State, t: Thread, key: Key, delta: Row)
    requires Timing(cfg, s) && MayUpdate(cfg, s, t, key)
    ensures Timing(cfg, DoInc(s, t, key, delta))
  {
    hide Network, Bgs, Flushes, Coverage, InTime;
    assert Clock(s.clock, t) == Clock(s.ticks, t);
    IncCoverage(cfg, s, t, key, delta);
    hide Clocks;
    IncFlushes(cfg, s, t, key);
    AppendInTime(cfg, s, Upd(t, Clock(s.clock, t), key, delta), InTable);
  }

  lemma IncFlushes(cfg: Config, s: State, t: Thread, key: Key)
    requires Flushes(cfg, s.pc, s.tOplog, s.tIndex, s.tCache) && key.table < cfg.tables
    requires PcOf(s.pc, t) == Running || PcOf(s.pc, t) == FlushCache(key.table)
    ensures Flushes(cfg, s.pc, s.tOplog, s.tIndex[t := Index(s.tIndex, t) + {key}], s.tCache)
  {
    hide Held, PcFine;
    IndexOne(cfg, s.pc, s.tIndex, t, key);
  }

  lemma IndexOne(cfg: Config, pc: map<Thread, Pc>, tIndex: map<Thread, set<Key>>, t: Thread, key: Key)
    requires Indexed(cfg, pc, tIndex) && key.table < cfg.tables
    requires PcOf(pc, t) == Running || PcOf(pc, t) == FlushCache(key.table)
    ensures Indexed(cfg, pc, tIndex[t := Index(tIndex, t) + {key}])
  {
    var tIndex' := tIndex[t := Index(tIndex, t) + {key}];
    forall o, k | k in Index(tIndex', o) ensures k.table < cfg.tables && MayIndex(PcOf(pc, o), k.table, Chan(cfg, k)) {
      assert k in Index(tIndex, o) || (o == t && k == key);
    }
  }

  lemma IncCoverage(cfg: Config, s: State, t: Thread, key: Key, delta: Row)
    requires |s.place| == |s.log| && Clocks(cfg, s.clock, s.pc, s.ticks, s.posted)
    requires Coverage(cfg, s.log, s.place, s.ticks, s.tIndex, s.sIndex, s.bg) && MayUpdate(cfg, s, t, key)
    ensures var s' := DoInc(s, t, key, delta);
      Coverage(cfg, s'.log, s'.place, s'.ticks, s'.tIndex, s'.sIndex, s'.bg)
  {
    var s' := DoInc(s, t, key, delta);
    IndexSet(s.tIndex, t, s'.tIndex[t]);
    forall i | 0 <= i < |s'.place| && s'.place[i] == InTable
      ensures Covered(cfg, s'.log[i], s'.ticks, s'.tIndex, s'.sIndex, s'.bg)
    {
      if i < |s.log| {
        assert s'.log[i] == s.log[i] && s'.place[i] == s.place[i];
        assert Covered(cfg, s.log[i], s.ticks, s.tIndex, s.sIndex, s.bg);
      }
    }
    forall i | 0 <= i < |s'.place| && s'.place[i] == InThread
      ensures Clock(s'.ticks, s'.log[i].thread) <= s'.log[i].clock
    {
      assert s'.log[i] == s.log[i] && s'.place[i] == s.place[i];
    }
  }

  lemma AppendInTime(cfg: Config, s: State, u: Upd, pl: Place)
    requires |s.place| == |s.log| && InTime(cfg, s.log, s.place, s.bg)
    requires Clocks(cfg, s.clock, s.pc, s.ticks, s.posted) && Bgs(cfg, s.posted, s.bg)
    requires cfg.HasThread(u.thread) && u.clock == Clock(s.ticks, u.thread) && pl in {InThread, InTable}
    ensures InTime(cfg, s.log + [u], s.place + [pl], s.bg)
  {
    var log', place' := s.log + [u], s.place + [pl];
    forall i | 0 <= i < |place'|
      ensures BgFor(cfg, s.bg, log'[i]).hist != [] && InTimeAt(place'[i], log'[i], BgFor(cfg, s.bg, log'[i]))
    {
      if i < |s.log| {
        assert log'[i] == s.log[i] && place'[i] == s.place[i];
      } else {
        var p := Chan(cfg, u.key);
        assert cfg.HasServer(cfg.home(u.key));
        assert BgFine(cfg, Posted(s.posted, u.thread.client, p), BgFor(cfg, s.bg, u), p);
        assert PostedBy(cfg, s.ticks, s.posted, u.thread);
      }
    }
  }

  lemma CachedBy(cfg: Config, log: seq<Upd>, place: seq<Place>, bg: map<(nat, nat), Bg>,
                 pRow: map<(nat, Key), PRow>)
    requires |place| == |log| && PRows(cfg, log, place, bg, pRow)
    ensures forall w :: w in pRow ==> w.0 < |cfg.threads|
  {
    hide PRowOk;
  }

  lemma IncCaches(cfg: Config, s: State, t: Thread, key: Key, delta: Row)
    requires Caches(cfg, s) && Timing(cfg, s) && MayUpdate(cfg, s, t, key)
    ensures Caches(cfg, DoInc(s, t, key, delta))
  {
    hide Bgs, Flushes, Coverage, InTime, Network, Copies, PRows, Downstream, ServerKeys, Coherent, RowsFresh,
         SysClocks, ThreadRows;
    var s' := DoInc(s, t, key, delta);
    var u := Upd(t, Clock(s.clock, t), key, delta);
    MergeRowViews(cfg, s.pRow, t.client, key, Cell(delta, {|s.log|}));
    AppendDownstream(cfg, s, u, InTable, s'.pRow);
    AppendCopies(cfg, s.log, s.place, s.bg, s.down, u, InTable);
    IncPRows(cfg, s.log, s.place, s.bg, s.pRow, u);
    SeenReached(cfg, s, t);
    CachedBy(cfg, s.log, s.place, s.bg, s.pRow);
    AppendRowsFresh(cfg, s, u, InTable);
    MergeRowFresh(cfg, s'.log, s'.place, s.pRow, s.seen, s.pushClock, t.client, key, Cell(delta, {|s.log|}));
    SameCoherent(cfg, s.pRow, s'.pRow, s.down, s.srv);
    AppendThreadRows(cfg, s, u, InTable);
  }

  lemma SameCoherent(cfg: Config, pRow: map<(nat, Key), PRow>, pRow': map<(nat, Key), PRow>,
                     down: map<(nat, Srv), seq<Down>>, srv: map<Srv, Server>)
    requires Coherent(cfg, pRow, down, srv)
    requires forall c, v :: ViewOf(cfg, pRow', c, v) == ViewOf(cfg, pRow, c, v)
    ensures Coherent(cfg, pRow', down, srv)
  {
  }

  lemma IncPRows(cfg: Config, log: seq<Upd>, place: seq<Place>, bg: map<(nat, nat), Bg>,
                 pRow: map<(nat, Key), PRow>, u: Upd)
    requires |place| == |log| && PRows(cfg, log, place, bg, pRow)
    ensures PRows(cfg, log + [u], place + [InTable], bg,
                  MergeRow(pRow, u.thread.client, u.key, Cell(u.delta, {|log|})))
  {
    var pRow' := MergeRow(pRow, u.thread.client, u.key, Cell(u.delta, {|log|}));
    forall w | w in pRow'
      ensures w.0 < |cfg.threads|
      ensures PRowOk(log + [u], place + [InTable], w.0, w.1, |BgOf(bg, w.0, Chan(cfg, w.1)).saved|, pRow'[w])
    {
      assert w in pRow;
      var upto := |BgOf(bg, w.0, Chan(cfg, w.1)).saved|;
      if w == (u.thread.client, u.key) {
        PRowInc(log, place, u, w.0, w.1, upto, pRow[w]);
      } else {
        PRowAppend(log, place, u, InTable, w.0, w.1, upto, pRow[w]);
      }
      hide PRowOk;
    }
    hide PRowOk;
  }

  lemma MergeRowFresh(cfg: Config, log: seq<Upd>, place: seq<Place>, pRow: map<(nat, Key), PRow>,
                      seen: map<(nat, Srv), int>, pushClock: map<(nat, Srv), int>, c: nat, key: Key, cell: Cell)
    requires |place| == |log| && RowsFresh(cfg, log, place, pRow, seen, pushClock)
    ensures RowsFresh(cfg, log, place, MergeRow(pRow, c, key, cell), seen, pushClock)
  {
    hide Fresh;
    var pRow' := MergeRow(pRow, c, key, cell);
    forall w | w in pRow'
      ensures w in pRow && pRow'[w].base == pRow[w].base && pRow'[w].clock == pRow[w].clock
    {
    }
  }

  lemma AppendThreadRows(cfg: Config, s: State, u: Upd, pl: Place)
    requires |s.place| == |s.log|
    requires ThreadRows(cfg, s.log, s.place, s.clock, s.pc, s.ticks, s.tOplog, s.tCache)
    requires cfg.HasThread(u.thread) && u.clock == Clock(s.ticks, u.thread)
    ensures ThreadRows(cfg, s.log + [u], s.place + [pl], s.clock, s.pc, s.ticks, s.tOplog, s.tCache)
  {
    forall w | w in s.tCache && PcOf(s.pc, w.0) == Running
      ensures ThreadRow(cfg, s.log + [u], s.place + [pl], s.clock, s.ticks, w.0, w.1, Oplog(s.tOplog, w), s.tCache[w])
    {
      AppendThreadRow(cfg, s, u, pl, w.0, w.1, Oplog(s.tOplog, w), s.tCache[w]);
    }
  }

  lemma IncValues(cfg: Config, s: State, t: Thread, key: Key, delta: Row)
    requires Values(cfg, s)
    ensures Values(cfg, DoInc(s, t, key, delta))
  {
    hide AllOk, AllBgCells, ServerCells, CellOk;
    var u, w := Upd(t, Clock(s.clock, t), key, delta), (t.client, key);
    AppendCells(cfg, s, u);
    OplogOk(s.log, s.pOplog, w);
    AppendedOk(s.log, u, Oplog(s.pOplog, w));
    AllOkSet(s.log + [u], s.pOplog, w, Merge(Oplog(s.pOplog, w), Cell(delta, {|s.log|})));
  }

  lemma AppendedOk(log: seq<Upd>, u: Upd, cell: Cell)
    requires CellOk(log, cell)
    ensures CellOk(log + [u], Merge(cell, Cell(u.delta, {|log|})))
  {
    AppendOk(log, u);
    MergeOk(log + [u], cell, Cell(u.delta, {|log|}));
  }

  // ---- ThreadInc ----

  lemma ThreadIncKeeps(cfg: Config, s: State, t: Thread, key: Key, delta: Row)
    requires Inv(cfg, s) && MayUpdate(cfg, s, t, key)
    ensures Inv(cfg, DoThreadInc(s, t, key, delta))
  {
    ThreadIncWhere(cfg, s, t, key, delta);
    ThreadIncTiming(cfg, s, t, key, delta);
    ThreadIncCaches(cfg, s, t, key, delta);
    ThreadIncValues(cfg, s, t, key, delta);
    hide Where, Timing, Caches, Values;
  }

  lemma ThreadIncWhere(cfg: Config, s: State, t: Thread, key: Key, delta: Row)
    requires Where(cfg, s) && MayUpdate(cfg, s, t, key)
    ensures Where(cfg, DoThreadInc(s, t, key, delta))
  {
    hide ThreadOplogs, TableOplogs, Cancelled, Gathered, Batches, ServerRows;
    var u := Upd(t, Clock(s.clock, t), key, delta);
    AppendTableOplogs(s.log, s.place, s.pOplog, u, InThread);
    AppendCancelled(s.log, s.place, s.gone, u, InThread);
    AppendGathered(cfg, s.log, s.place, s.bg, u, InThread);
    AppendBatches(cfg, s.log, s.place, s.bg, u, InThread);
    AppendServerRows(cfg, s.log, s.place, s.srv, u, InThread);
    ThreadIncOplogs(s.log, s.place, s.tOplog, u);
    AppendLog(cfg, s.log, s.place, u, InThread);
    hide LogOk;
  }

  lemma ThreadIncOplogs(log: seq<Upd>, place: seq<Place>, tOplog: map<(Thread, Key), Cell>, u: Upd)
    requires |place| == |log| && ThreadOplogs(log, place, tOplog)
    ensures var w := (u.thread, u.key);
      ThreadOplogs(log + [u], place + [InThread], tOplog[w := Merge(Oplog(tOplog, w), Cell(u.delta, {|log|}))])
  {
    var mine := (u.thread, u.key);
    var log', place' := log + [u], place + [InThread];
    var tOplog' := tOplog[mine := Merge(Oplog(tOplog, mine), Cell(u.delta, {|log|}))];
    forall i | 0 <= i < |place'| && place'[i] == InThread
      ensures (log'[i].thread, log'[i].key) in tOplog' && i in tOplog'[(log'[i].thread, log'[i].key)].ids
    {
      assert i < |log| ==> log'[i] == log[i] && place'[i] == place[i];
    }
    forall w, i: nat | w in tOplog' && i in tOplog'[w].ids
      ensures i < |place'| && place'[i] == InThread && w == (log'[i].thread, log'[i].key)
    {
      assert (w in tOplog && i in tOplog[w].ids) || (i == |log| && w == mine);
      assert i < |log| ==> log'[i] == log[i] && place'[i] == place[i];
    }
  }

  lemma ThreadIncTiming(cfg: Config, s: State, t: Thread, key: Key, delta: Row)
    requires Timing(cfg, s) && MayUpdate(cfg, s, t, key)
    ensures Timing(cfg, DoThreadInc(s, t, key, delta))
  {
    hide Network, Flushes, Coverage, InTime, Bgs;
    var u := Upd(t, Clock(s.clock, t), key, delta);
    assert u.clock == Clock(s.ticks, t);
    hide Clocks;
    var s' := DoThreadInc(s, t, key, delta);
    assert s'.tOplog.Keys == s.tOplog.Keys + {(t, key)};
    ThreadIncFlushes(cfg, s.pc, s.tOplog, s.tIndex, s.tCache, t, key, s'.tOplog, s'.tCache);
    AppendCoverage(cfg, s, u);
    AppendInTime(cfg, s, u, InThread);
  }

  lemma ThreadIncFlushes(cfg: Config, pc: map<Thread, Pc>, tOplog: map<(Thread, Key), Cell>,
                         tIndex: map<Thread, set<Key>>, tCache: map<(Thread, Key), Cell>, t: Thread, key: Key,
                         tOplog': map<(Thread, Key), Cell>, tCache': map<(Thread, Key), Cell>)
    requires Flushes(cfg, pc, tOplog, tIndex, tCache)
    requires cfg.HasThread(t) && PcOf(pc, t) == Running && key.table < cfg.tables
    requires tOplog'.Keys == tOplog.Keys + {(t, key)} && tCache'.Keys == tCache.Keys
    ensures Flushes(cfg, pc, tOplog', tIndex, tCache')
  {
    hide Indexed, PcFine;
  }

  lemma AppendCoverage(cfg: Config, s: State, u: Upd)
    requires |s.place| == |s.log| && u.clock == Clock(s.ticks, u.thread)
    requires Coverage(cfg, s.log, s.place, s.ticks, s.tIndex, s.sIndex, s.bg)
    ensures Coverage(cfg, s.log + [u], s.place + [InThread], s.ticks, s.tIndex, s.sIndex, s.bg)
  {
    hide Covered;
    var log', place' := s.log + [u], s.place + [InThread];
    forall i | 0 <= i < |place'| && place'[i] == InTable
      ensures Covered(cfg, log'[i], s.ticks, s.tIndex, s.sIndex, s.bg)
    {
      assert place'[i] == s.place[i] && log'[i] == s.log[i];
    }
    forall i | 0 <= i < |place'| && place'[i] == InThread
      ensures Clock(s.ticks, log'[i].thread) <= log'[i].clock
    {
      assert i < |s.log| ==> place'[i] == s.place[i] && log'[i] == s.log[i];
    }
  }

  lemma ThreadIncCaches(cfg: Config, s: State, t: Thread, key: Key, delta: Row)
    requires Caches(cfg, s) && Timing(cfg, s) && MayUpdate(cfg, s, t, key)
    ensures Caches(cfg, DoThreadInc(s, t, key, delta))
  {
    hide Bgs, Flushes, Coverage, InTime, Network, Copies, PRows, Downstream, ServerKeys, Coherent, RowsFresh,
         SysClocks, ThreadRows;
    var u := Upd(t, Clock(s.clock, t), key, delta);
    assert u.clock == Clock(s.ticks, t);
    hide Clocks;
    AppendDownstream(cfg, s, u, InThread, s.pRow);
    AppendCopies(cfg, s.log, s.place, s.bg, s.down, u, InThread);
    AppendPRows(cfg, s.log, s.place, s.bg, s.pRow, u, InThread);
    SeenReached(cfg, s, t);
    CachedBy(cfg, s.log, s.place, s.bg, s.pRow);
    AppendRowsFresh(cfg, s, u, InThread);
    ThreadIncRows(cfg, s, t, key, delta);
  }

  lemma AppendPRows(cfg: Config, log: seq<Upd>, place: seq<Place>, bg: map<(nat, nat), Bg>,
                    pRow: map<(nat, Key), PRow>, u: Upd, pl: Place)
    requires |place| == |log| && PRows(cfg, log, place, bg, pRow) && !Left(pl)
    ensures PRows(cfg, log + [u], place + [pl], bg, pRow)
  {
    hide PRowOk;
    forall w | w in pRow
      ensures w.0 < |cfg.threads|
      ensures PRowOk(log + [u], place + [pl], w.0, w.1, |BgOf(bg, w.0, Chan(cfg, w.1)).saved|, pRow[w])
    {
      PRowAppend(log, place, u, pl, w.0, w.1, |BgOf(bg, w.0, Chan(cfg, w.1)).saved|, pRow[w]);
    }
  }

  /** The update reaches the thread's row in the same step as its oplog. */
  lemma ThreadIncRow(cfg: Config, s: State, u: Upd, mine: Cell, row: Cell)
    requires |s.place| == |s.log|
    requires ThreadRow(cfg, s.log, s.place, s.clock, s.ticks, u.thread, u.key, mine, row)
    requires cfg.HasThread(u.thread) && u.clock == Clock(s.ticks, u.thread)
    ensures ThreadRow(cfg, s.log + [u], s.place + [InThread], s.clock, s.ticks, u.thread, u.key,
                      Merge(mine, Cell(u.delta, {|s.log|})), Merge(row, Cell(u.delta, {|s.log|})))
  {
    AppendThreadRow(cfg, s, u, InThread, u.thread, u.key, mine, row);
    AppendedOk(s.log, u, row);
    hide CellOk, AllTicked;
  }

  lemma ThreadIncRows(cfg: Config, s: State, t: Thread, key: Key, delta: Row)
    requires |s.place| == |s.log|
    requires ThreadRows(cfg, s.log, s.place, s.clock, s.pc, s.ticks, s.tOplog, s.tCache)
    requires MayUpdate(cfg, s, t, key) && Clock(s.clock, t) == Clock(s.ticks, t)
    ensures var s' := DoThreadInc(s, t, key, delta);
      ThreadRows(cfg, s'.log, s'.place, s'.clock, s'.pc, s'.ticks, s'.tOplog, s'.tCache)
  {
    hide ThreadRow;
    var s' := DoThreadInc(s, t, key, delta);
    var u := Upd(t, Clock(s.clock, t), key, delta);
    forall w | w in s'.tCache && PcOf(s.pc, w.0) == Running
      ensures ThreadRow(cfg, s'.log, s'.place, s.clock, s.ticks, w.0, w.1, Oplog(s'.tOplog, w), s'.tCache[w])
    {
      assert w in s.tCache;
      if w == (t, key) {
        ThreadIncRow(cfg, s, u, Oplog(s.tOplog, w), s.tCache[w]);
      } else {
        AppendThreadRow(cfg, s, u, InThread, w.0, w.1, Oplog(s.tOplog, w), s.tCache[w]);
      }
    }
  }

  lemma ThreadIncValues(cfg: Config, s: State, t: Thread, key: Key, delta: Row)
    requires Values(cfg, s)
    ensures Values(cfg, DoThreadInc(s, t, key, delta))
  {
    hide AllOk, AllBgCells, ServerCells, CellOk;
    var u, w := Upd(t, Clock(s.clock, t), key, delta), (t, key);
    AppendCells(cfg, s, u);
    OplogOk(s.log, s.tOplog, w);
    AppendedOk(s.log, u, Oplog(s.tOplog, w));
    AllOkSet(s.log + [u], s.tOplog, w, Merge(Oplog(s.tOplog, w), Cell(delta, {|s.log|})));
  }
}
