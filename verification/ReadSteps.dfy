/** Reads through the thread cache, eviction from the process cache, and the system clock of SSPPush. */
module ReadSteps {
  import opened Rows
  import opened ServerSpec
  import opened Protocol
  import opened Invariant
  import UpdateSteps

  /** A cached row that passes the check has every update from iterations before the stalest clock that the reader
      accepts, and every thread is past that clock. */
  lemma CachedRowIsFresh(cfg: Config, s: State, t: Thread, key: Key)
    requires Timing(cfg, s) && Caches(cfg, s) && cfg.HasThread(t) && FreshEnough(cfg, s, t, key)
    ensures var m := StalestAt(cfg, s.clock, t, key.table);
      && Fresh(s.log, s.place, key, s.pRow[(t.client, key)].base, m)
      && AllTicked(cfg, s.ticks, m)
  {
    hide Clocks, Bgs, Flushes, Coverage, InTime, Network, Copies, PRows, ServerKeys, Coherent, ThreadRows, Fresh,
         Good, ViewOf,
         EndClock;
    var w, m := (t.client, key), StalestAt(cfg, s.clock, t, key.table);
    var v := Home(cfg, key);
    assert cfg.HasServer(v);
    assert w in s.pRow;
    var r := s.pRow[w];
    assert RowFresh(s.log, s.place, key, r, ClockAt(s.pushClock, t.client, v), ClockAt(s.seen, t.client, v));
    assert ClockAt(s.seen, t.client, v) <= SrvOf(cfg, s.srv, v).vc.min;
    assert SysClockOf(s.sysClock, t.client) <= ClockAt(s.pushClock, t.client, v) <= ClockAt(s.seen, t.client, v);
    forall o | cfg.HasThread(o) ensures m <= Clock(s.ticks, o) {
      UpdateSteps.Reached(cfg, s, o, v);
    }
    FreshDown(s.log, s.place, key, r.base, if cfg.push then ClockAt(s.pushClock, t.client, v) else r.clock, m);
  }

  lemma FreshDown(log: seq<Upd>, place: seq<Place>, key: Key, ids: set<nat>, m: int, n: int)
    requires |place| == |log| && Fresh(log, place, key, ids, m) && n <= m
    ensures Fresh(log, place, key, ids, n)
  {
  }

  lemma FreshMore(log: seq<Upd>, place: seq<Place>, key: Key, ids: set<nat>, more: set<nat>, m: int)
    requires |place| == |log| && Fresh(log, place, key, ids, m) && ids <= more
    ensures Fresh(log, place, key, more, m)
  {
  }

  // ---- Fetch ----

  lemma FetchKeeps(cfg: Config, s: State, t: Thread, key: Key)
    requires Inv(cfg, s) && MayFetch(cfg, s, t, key)
    ensures Inv(cfg, DoFetch(s, t, key))
  {
    FetchTiming(cfg, s, t, key);
    FetchCaches(cfg, s, t, key);
    hide Where, Timing, Caches, Values;
    assert Where(cfg, DoFetch(s, t, key)) by { FetchWhere(cfg, s, t, key); }
    assert Values(cfg, DoFetch(s, t, key)) by { FetchValues(cfg, s, t, key); }
  }

  lemma FetchWhere(cfg: Config, s: State, t: Thread, key: Key)
    requires Where(cfg, s) && MayFetch(cfg, s, t, key)
    ensures Where(cfg, DoFetch(s, t, key))
  {
    hide ThreadOplogs, TableOplogs, Cancelled, Gathered, Batches, ServerRows, FreshEnough;
  }

  lemma FetchValues(cfg: Config, s: State, t: Thread, key: Key)
    requires Values(cfg, s) && MayFetch(cfg, s, t, key)
    ensures Values(cfg, DoFetch(s, t, key))
  {
    hide CellsOk, ServerCells, FreshEnough;
  }

  lemma FetchTiming(cfg: Config, s: State, t: Thread, key: Key)
    requires Timing(cfg, s) && MayFetch(cfg, s, t, key)
    ensures Timing(cfg, DoFetch(s, t, key))
  {
    hide Clocks, Bgs, Flushes, Coverage, InTime, Network, FreshEnough;
    FetchFlushes(cfg, s, t, key);
  }

  lemma FetchFlushes(cfg: Config, s: State, t: Thread, key: Key)
    requires Flushes(cfg, s.pc, s.tOplog, s.tIndex, s.tCache) && MayFetch(cfg, s, t, key)
    ensures Flushes(cfg, s.pc, s.tOplog, s.tIndex, DoFetch(s, t, key).tCache)
  {
    hide Held, Indexed, PcFine;
    HeldOne(cfg, s.pc, s.tCache, t, key, Merge(s.pRow[(t.client, key)].cell, Oplog(s.tOplog, (t, key))));
  }

  lemma HeldOne(cfg: Config, pc: map<Thread, Pc>, tCache: map<(Thread, Key), Cell>, t: Thread, key: Key, cell: Cell)
    requires Held(cfg, pc, tCache.Keys) && cfg.HasThread(t) && key.table < cfg.tables && PcOf(pc, t) == Running
    ensures Held(cfg, pc, tCache[(t, key) := cell].Keys)
  {
  }

  lemma FetchCaches(cfg: Config, s: State, t: Thread, key: Key)
    requires Inv(cfg, s) && MayFetch(cfg, s, t, key)
    ensures Caches(cfg, DoFetch(s, t, key))
  {
    hide Where, Timing, Values, Copies, PRows, Downstream, ServerKeys, Coherent, RowsFresh, SysClocks, ThreadRows;
    FetchThreadRows(cfg, s, t, key);
    hide FreshEnough;
  }

  lemma FetchThreadRows(cfg: Config, s: State, t: Thread, key: Key)
    requires Where(cfg, s) && Timing(cfg, s) && Caches(cfg, s) && Values(cfg, s) && MayFetch(cfg, s, t, key)
    ensures var s' := DoFetch(s, t, key);
      ThreadRows(cfg, s.log, s.place, s.clock, s.pc, s.ticks, s.tOplog, s'.tCache)
  {
    hide Where, Timing, Values, Copies, PRows, Downstream, ServerKeys, Coherent, RowsFresh, SysClocks, ThreadRow,
         StalestAt, Fresh, AllTicked;
    CachedRowIsFresh(cfg, s, t, key);
    FetchedRow(cfg, s, t, key);
    hide FreshEnough;
    var s' := DoFetch(s, t, key);
    forall w | w in s'.tCache && PcOf(s.pc, w.0) == Running
      ensures ThreadRow(cfg, s.log, s.place, s.clock, s.ticks, w.0, w.1, Oplog(s.tOplog, w), s'.tCache[w])
    {
      assert w == (t, key) || w in s.tCache;
    }
  }

  /** The thread's own oplog is applied to the clone once, because the process row has none of it. */
  lemma FetchedRow(cfg: Config, s: State, t: Thread, key: Key)
    requires Where(cfg, s) && Caches(cfg, s) && Values(cfg, s)
    requires (t.client, key) in s.pRow && key.table < cfg.tables
    requires var m := StalestAt(cfg, s.clock, t, key.table);
      && Fresh(s.log, s.place, key, s.pRow[(t.client, key)].base, m)
      && AllTicked(cfg, s.ticks, m)
    ensures var mine := Oplog(s.tOplog, (t, key));
      ThreadRow(cfg, s.log, s.place, s.clock, s.ticks, t, key, mine, Merge(s.pRow[(t.client, key)].cell, mine))
  {
    hide TableOplogs, Cancelled, Gathered, Batches, ServerRows, Copies, Downstream, ServerKeys, Coherent, RowsFresh,
         SysClocks,
         ThreadRows, AllOk, AllBgCells, ServerCells, AllTicked, CellOk;
    var w := (t.client, key);
    var r, mine := s.pRow[w], Oplog(s.tOplog, (t, key));
    assert PRowOk(s.log, s.place, w.0, w.1, |BgOf(s.bg, w.0, Chan(cfg, w.1)).saved|, r);
    hide PRows;
    assert r.cell.ids !! mine.ids by {
      forall i: nat | i in r.cell.ids ensures i < |s.place| && s.place[i] != InThread {
      }
    }
    OplogOk(s.log, s.tOplog, (t, key));
    MergeOk(s.log, r.cell, mine);
    assert r.base <= r.cell.ids;
    FreshMore(s.log, s.place, key, r.base, r.cell.ids + mine.ids, StalestAt(cfg, s.clock, t, key.table));
    hide Fresh;
  }

  // ---- Forget ----

  lemma ForgetKeeps(cfg: Config, s: State, t: Thread, table: nat)
    requires Inv(cfg, s)
    ensures Inv(cfg, s.(tCache := Uncached(s.tCache, t, table)))
  {
    hide LogOk, ThreadOplogs, TableOplogs, Cancelled, Gathered, Batches, ServerRows, Clocks, Bgs, Flushes, Coverage,
         InTime, Network, Copies, PRows, Downstream, ServerKeys, Coherent, RowsFresh, SysClocks, ThreadRows, CellsOk,
         ServerCells, Uncached;
    FewerHeld(cfg, s, t, table);
    FewerThreadRows(cfg, s, t, table);
  }

  lemma FewerHeld(cfg: Config, s: State, t: Thread, table: nat)
    requires Flushes(cfg, s.pc, s.tOplog, s.tIndex, s.tCache)
    ensures Flushes(cfg, s.pc, s.tOplog, s.tIndex, Uncached(s.tCache, t, table))
  {
    hide Indexed, PcFine;
  }

  lemma FewerThreadRows(cfg: Config, s: State, t: Thread, table: nat)
    requires |s.place| == |s.log| && ThreadRows(cfg, s.log, s.place, s.clock, s.pc, s.ticks, s.tOplog, s.tCache)
    ensures ThreadRows(cfg, s.log, s.place, s.clock, s.pc, s.ticks, s.tOplog, Uncached(s.tCache, t, table))
  {
    hide ThreadRow;
  }

  // ---- Evict ----

  lemma EvictKeeps(cfg: Config, s: State, c: nat, key: Key)
    requires Inv(cfg, s)
    ensures Inv(cfg, s.(pRow := s.pRow - {(c, key)}))
  {
    EvictCaches(cfg, s, c, key);
    hide Caches, LogOk, ThreadOplogs, TableOplogs, Cancelled, Gathered, Batches, ServerRows, Clocks, Bgs, Flushes,
         Coverage, InTime, Network, CellsOk, ServerCells;
  }

  lemma EvictCaches(cfg: Config, s: State, c: nat, key: Key)
    requires Caches(cfg, s)
    ensures Caches(cfg, s.(pRow := s.pRow - {(c, key)}))
  {
    var pRow' := s.pRow - {(c, key)};
    hide Copies, PRows, Downstream, ServerKeys, Coherent, RowsFresh, SysClocks, ThreadRows;
    FewerPRows(cfg, s.log, s.place, s.bg, s.pRow, (c, key));
    FewerFresh(cfg, s.log, s.place, s.pRow, s.seen, s.pushClock, (c, key));
    FewerDownstream(cfg, s.log, s.place, s.pRow, s.seen, s.down, s.srv, (c, key));
    FewerCoherent(cfg, s.pRow, s.down, s.srv, (c, key));
  }

  lemma FewerPRows(cfg: Config, log: seq<Upd>, place: seq<Place>, bg: map<(nat, nat), Bg>,
                   pRow: map<(nat, Key), PRow>, x: (nat, Key))
    requires |place| == |log| && PRows(cfg, log, place, bg, pRow)
    ensures PRows(cfg, log, place, bg, pRow - {x})
  {
    hide PRowOk;
  }

  lemma FewerFresh(cfg: Config, log: seq<Upd>, place: seq<Place>, pRow: map<(nat, Key), PRow>,
                   seen: map<(nat, Srv), int>, pushClock: map<(nat, Srv), int>, x: (nat, Key))
    requires |place| == |log| && RowsFresh(cfg, log, place, pRow, seen, pushClock)
    ensures RowsFresh(cfg, log, place, pRow - {x}, seen, pushClock)
  {
    hide Fresh;
  }

  ghost predicate SubView(a: map<Key, set<nat>>, b: map<Key, set<nat>>) {
    forall k :: k in a ==> k in b && a[k] == b[k]
  }

  lemma FewerViews(cfg: Config, pRow: map<(nat, Key), PRow>, x: (nat, Key), c: nat, v: Srv)
    ensures SubView(ViewOf(cfg, pRow - {x}, c, v), ViewOf(cfg, pRow, c, v))
  {
  }

  lemma {:induction false} GoodSub(log: seq<Upd>, place: seq<Place>, a: map<Key, set<nat>>, b: map<Key, set<nat>>,
                                   clock: int, q: seq<Down>)
    requires |place| == |log| && Good(log, place, b, clock, q) && SubView(a, b)
    ensures Good(log, place, a, clock, q)
    decreases |q|
  {
    hide Fresh;
    if q != [] {
      GoodSub(log, place, Seen(a, q[0]), Seen(b, q[0]), q[0].clock, q[1..]);
    }
  }

  lemma {:induction false} EndViewSub(a: map<Key, set<nat>>, b: map<Key, set<nat>>, q: seq<Down>)
    requires SubView(a, b)
    ensures SubView(EndView(a, q), EndView(b, q))
    decreases |q|
  {
    if q != [] {
      EndViewSub(Seen(a, q[0]), Seen(b, q[0]), q[1..]);
    }
  }

  lemma FewerDownstream(cfg: Config, log: seq<Upd>, place: seq<Place>, pRow: map<(nat, Key), PRow>,
                        seen: map<(nat, Srv), int>, down: map<(nat, Srv), seq<Down>>, srv: map<Srv, Server>,
                        x: (nat, Key))
    requires |place| == |log| && Downstream(cfg, log, place, pRow, seen, down, srv)
    ensures Downstream(cfg, log, place, pRow - {x}, seen, down, srv)
  {
    hide Good, SubView, ViewOf, EndClock;
    forall c: nat, v | c < |cfg.threads| && cfg.HasServer(v)
      ensures Good(log, place, ViewOf(cfg, pRow - {x}, c, v), ClockAt(seen, c, v), Queue(down, c, v))
    {
      FewerViews(cfg, pRow, x, c, v);
      GoodSub(log, place, ViewOf(cfg, pRow - {x}, c, v), ViewOf(cfg, pRow, c, v), ClockAt(seen, c, v),
              Queue(down, c, v));
    }
  }

  lemma FewerCoherent(cfg: Config, pRow: map<(nat, Key), PRow>, down: map<(nat, Srv), seq<Down>>,
                      srv: map<Srv, Server>, x: (nat, Key))
    requires Coherent(cfg, pRow, down, srv)
    ensures Coherent(cfg, pRow - {x}, down, srv)
  {
    hide ViewOf, EndView;
    if cfg.push {
      forall c: nat, v | c < |cfg.threads| && cfg.HasServer(v)
        ensures CoherentView(SrvOf(cfg, srv, v), c, EndView(ViewOf(cfg, pRow - {x}, c, v), Queue(down, c, v)))
      {
        assert CoherentView(SrvOf(cfg, srv, v), c, EndView(ViewOf(cfg, pRow, c, v), Queue(down, c, v)));
        FewerViews(cfg, pRow, x, c, v);
        EndViewSub(ViewOf(cfg, pRow - {x}, c, v), ViewOf(cfg, pRow, c, v), Queue(down, c, v));
      }
    }
  }

  // ---- SysTick ----

  lemma SysTickKeeps(cfg: Config, s: State, c: nat)
    requires Inv(cfg, s) && MaySysTick(cfg, s, c)
    ensures Inv(cfg, s.(sysClock := s.sysClock[c := SysClockOf(s.sysClock, c) + 1]))
  {
    hide LogOk, ThreadOplogs, TableOplogs, Cancelled, Gathered, Batches, ServerRows, Clocks, Bgs, Flushes,
         Coverage, InTime, Network, Copies, PRows, Downstream, ServerKeys, Coherent, RowsFresh, ThreadRows, CellsOk,
         ServerCells;
  }
}
