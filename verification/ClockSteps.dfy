/** TableGroup.Clock, step by step: flush the thread caches, flush the indexes, tick, post. */
module ClockSteps {
  import opened Rows
  import opened ServerSpec
  import opened Protocol
  import opened Invariant

  // ---- ClockBegin ----

  lemma ClockBeginKeeps(cfg: Config, s: State, t: Thread)
    requires Inv(cfg, s) && cfg.HasThread(t) && PcOf(s.pc, t) == Running
    ensures Inv(cfg, DoClockBegin(cfg, s, t))
  {
    hide LogOk, ThreadOplogs, TableOplogs, Cancelled, Gathered, Batches, ServerRows, Clocks, Bgs, Flushes, Coverage,
         InTime, Network, Copies, PRows, Downstream, ServerKeys, Coherent, RowsFresh, SysClocks, ThreadRows, CellsOk,
         ServerCells;
    var s' := DoClockBegin(cfg, s, t);
    ClockBeginClocks(cfg, s.clock, s.pc, s.ticks, s.posted, t);
    ClockBeginFlushes(cfg, s, t);
    ThreadRowsAtPc(cfg, s, t, s'.clock, s'.pc);
  }

  lemma ClockBeginClocks(cfg: Config, clock: map<Thread, nat>, pc: map<Thread, Pc>, ticks: map<Thread, nat>,
                         posted: map<(nat, nat), nat>, t: Thread)
    requires Clocks(cfg, clock, pc, ticks, posted) && PcOf(pc, t) == Running
    ensures Clocks(cfg, clock[t := Clock(clock, t) + 1], pc[t := FirstTable(cfg, 0)], ticks, posted)
  {
    PcSet(pc, t, FirstTable(cfg, 0));
    ClockSet(clock, t, Clock(clock, t) + 1);
    PcPosters(cfg, pc, ticks, posted, t, FirstTable(cfg, 0));
    hide Poster, PostedBy;
    forall a, b | cfg.HasThread(a) && cfg.HasThread(b) && b.client == a.client
      ensures Poster(cfg, pc[t := FirstTable(cfg, 0)], ticks, posted, a, b)
    {
      assert Poster(cfg, pc, ticks, posted, a, b);
    }
  }

  /** A thread that does not start to post changes nothing about who posts. */
  lemma PcPosters(cfg: Config, pc: map<Thread, Pc>, ticks: map<Thread, nat>, posted: map<(nat, nat), nat>,
                  t: Thread, to: Pc)
    requires !to.Posting?
    ensures forall a, b :: Poster(cfg, pc, ticks, posted, a, b) ==> Poster(cfg, pc[t := to], ticks, posted, a, b)
  {
    PcSet(pc, t, to);
  }

  lemma ClockBeginFlushes(cfg: Config, s: State, t: Thread)
    requires Flushes(cfg, s.pc, s.tOplog, s.tIndex, s.tCache)
    ensures Flushes(cfg, s.pc[t := FirstTable(cfg, 0)], s.tOplog, s.tIndex, s.tCache)
  {
    PcFlushes(cfg, s.pc, s.tOplog, s.tIndex, s.tCache, t, FirstTable(cfg, 0));
  }

  /** Moving a thread's program counter keeps the flush bookkeeping if nothing is left behind it. */
  lemma PcFlushes(cfg: Config, pc: map<Thread, Pc>, tOplog: map<(Thread, Key), Cell>, tIndex: map<Thread, set<Key>>,
                  tCache: map<(Thread, Key), Cell>, t: Thread, to: Pc)
    requires Flushes(cfg, pc, tOplog, tIndex, tCache)
    requires PcFine(cfg, to)
    requires forall w :: w in tOplog && w.0 == t ==> MayHold(to, w.1.table)
    requires forall w :: w in tCache && w.0 == t ==> MayHold(to, w.1.table)
    requires forall k :: k in Index(tIndex, t) ==> MayIndex(to, k.table, Chan(cfg, k))
    ensures Flushes(cfg, pc[t := to], tOplog, tIndex, tCache)
  {
    var pc' := pc[t := to];
    PcSet(pc, t, to);
    PcHeld(cfg, pc, tOplog.Keys, t, to);
    PcHeld(cfg, pc, tCache.Keys, t, to);
    PcIndexed(cfg, pc, tIndex, t, to);
    forall o ensures PcFine(cfg, PcOf(pc', o)) {
      assert PcFine(cfg, PcOf(pc, o));
    }
    hide PcFine, MayHold, MayIndex, Held, Indexed;
  }

  lemma PcHeld(cfg: Config, pc: map<Thread, Pc>, keys: set<(Thread, Key)>, t: Thread, to: Pc)
    requires Held(cfg, pc, keys) && forall w :: w in keys && w.0 == t ==> MayHold(to, w.1.table)
    ensures Held(cfg, pc[t := to], keys)
  {
    PcSet(pc, t, to);
    hide MayHold;
  }

  lemma PcIndexed(cfg: Config, pc: map<Thread, Pc>, tIndex: map<Thread, set<Key>>, t: Thread, to: Pc)
    requires Indexed(cfg, pc, tIndex) && forall k :: k in Index(tIndex, t) ==> MayIndex(to, k.table, Chan(cfg, k))
    ensures Indexed(cfg, pc[t := to], tIndex)
  {
    PcSet(pc, t, to);
    hide MayIndex;
  }

  /** Inside Clock a thread does not read its cache. */
  lemma ThreadRowsAtPc(cfg: Config, s: State, t: Thread, clock: map<Thread, nat>, pc: map<Thread, Pc>)
    requires |s.place| == |s.log| && ThreadRows(cfg, s.log, s.place, s.clock, s.pc, s.ticks, s.tOplog, s.tCache)
    requires forall o :: o != t ==> Clock(clock, o) == Clock(s.clock, o) && PcOf(pc, o) == PcOf(s.pc, o)
    requires PcOf(pc, t) == Running ==> forall w :: w in s.tCache ==> w.0 != t
    ensures ThreadRows(cfg, s.log, s.place, clock, pc, s.ticks, s.tOplog, s.tCache)
  {
    forall w | w in s.tCache && PcOf(pc, w.0) == Running
      ensures ThreadRow(cfg, s.log, s.place, clock, s.ticks, w.0, w.1, Oplog(s.tOplog, w), s.tCache[w])
    {
    }
  }

  lemma PcClocks(cfg: Config, clock: map<Thread, nat>, pc: map<Thread, Pc>, ticks: map<Thread, nat>,
                 posted: map<(nat, nat), nat>, t: Thread, to: Pc)
    requires Clocks(cfg, clock, pc, ticks, posted)
    requires !PcOf(pc, t).Running? && !PcOf(pc, t).Posting? && !to.Running? && !to.Posting?
    ensures Clocks(cfg, clock, pc[t := to], ticks, posted)
  {
    PcSet(pc, t, to);
    PcPosters(cfg, pc, ticks, posted, t, to);
    hide Poster, PostedBy;
    forall a, b | cfg.HasThread(a) && cfg.HasThread(b) && b.client == a.client
      ensures Poster(cfg, pc[t := to], ticks, posted, a, b)
    {
      assert Poster(cfg, pc, ticks, posted, a, b);
    }
  }

  // ---- EndFlush ----

  lemma EndFlushKeeps(cfg: Config, s: State, t: Thread)
    requires Inv(cfg, s) && MayEndFlush(cfg, s, t)
    ensures Inv(cfg, DoEndFlush(s, t, PcOf(s.pc, t).table))
  {
    hide LogOk, ThreadOplogs, TableOplogs, Cancelled, Gathered, Batches, ServerRows, Clocks, Bgs, Flushes, Coverage,
         InTime, Network, Copies, PRows, Downstream, ServerKeys, Coherent, RowsFresh, SysClocks, ThreadRows, CellsOk,
         ServerCells;
    var s' := DoEndFlush(s, t, PcOf(s.pc, t).table);
    var i := PcOf(s.pc, t).table;
    PcClocks(cfg, s.clock, s.pc, s.ticks, s.posted, t, FlushIndex(i, 0));
    EndFlushFlushes(cfg, s, t);
    EndFlushThreadRows(cfg, s, t);
  }

  lemma EndFlushFlushes(cfg: Config, s: State, t: Thread)
    requires Flushes(cfg, s.pc, s.tOplog, s.tIndex, s.tCache) && MayEndFlush(cfg, s, t)
    ensures var s' := DoEndFlush(s, t, PcOf(s.pc, t).table); Flushes(cfg, s'.pc, s'.tOplog, s'.tIndex, s'.tCache)
  {
    var s' := DoEndFlush(s, t, PcOf(s.pc, t).table);
    var i := PcOf(s.pc, t).table;
    assert PcFine(cfg, PcOf(s.pc, t));
    forall w | w in s'.tCache
      ensures cfg.HasThread(w.0) && w.1.table < cfg.tables && MayHold(PcOf(s.pc, w.0), w.1.table)
    {
      assert w in s.tCache;
    }
    PcFlushes(cfg, s.pc, s.tOplog, s.tIndex, s'.tCache, t, FlushIndex(i, 0));
  }

  lemma EndFlushThreadRows(cfg: Config, s: State, t: Thread)
    requires |s.place| == |s.log| && ThreadRows(cfg, s.log, s.place, s.clock, s.pc, s.ticks, s.tOplog, s.tCache)
    requires MayEndFlush(cfg, s, t)
    ensures var s' := DoEndFlush(s, t, PcOf(s.pc, t).table);
      ThreadRows(cfg, s'.log, s'.place, s'.clock, s'.pc, s'.ticks, s'.tOplog, s'.tCache)
  {
    var s' := DoEndFlush(s, t, PcOf(s.pc, t).table);
    PcSet(s.pc, t, FlushIndex(PcOf(s.pc, t).table, 0));
    forall w | w in s'.tCache && PcOf(s'.pc, w.0) == Running
      ensures ThreadRow(cfg, s.log, s.place, s.clock, s.ticks, w.0, w.1, Oplog(s.tOplog, w), s'.tCache[w])
    {
      assert w in s.tCache;
    }
  }

  // ---- AddIndex ----

  lemma AddIndexKeeps(cfg: Config, s: State, t: Thread)
    requires Inv(cfg, s) && cfg.HasThread(t) && PcOf(s.pc, t).FlushIndex?
    ensures Inv(cfg, DoAddIndex(cfg, s, t, PcOf(s.pc, t).table, PcOf(s.pc, t).chan))
  {
    hide LogOk, ThreadOplogs, TableOplogs, Cancelled, Gathered, Batches, ServerRows, Clocks, Bgs, Flushes, Coverage,
         InTime, Network, Copies, PRows, Downstream, ServerKeys, Coherent, RowsFresh, SysClocks, ThreadRows, CellsOk,
         ServerCells;
    var s' := DoAddIndex(cfg, s, t, PcOf(s.pc, t).table, PcOf(s.pc, t).chan);
    var pc := PcOf(s.pc, t);
    PcClocks(cfg, s.clock, s.pc, s.ticks, s.posted, t, AfterIndex(cfg, pc.table, pc.chan));
    AddIndexFlushes(cfg, s, t);
    AddIndexCoverage(cfg, s, t);
    PcSet(s.pc, t, AfterIndex(cfg, pc.table, pc.chan));
    ThreadRowsAtPc(cfg, s, t, s'.clock, s'.pc);
  }

  function AfterIndex(cfg: Config, table: nat, p: nat): Pc {
    if p + 1 < cfg.channels then FlushIndex(table, p + 1) else FirstTable(cfg, table + 1)
  }

  lemma AddIndexFlushes(cfg: Config, s: State, t: Thread)
    requires Flushes(cfg, s.pc, s.tOplog, s.tIndex, s.tCache) && cfg.HasThread(t) && PcOf(s.pc, t).FlushIndex?
    ensures var s' := DoAddIndex(cfg, s, t, PcOf(s.pc, t).table, PcOf(s.pc, t).chan);
      Flushes(cfg, s'.pc, s'.tOplog, s'.tIndex, s'.tCache)
  {
    var s' := DoAddIndex(cfg, s, t, PcOf(s.pc, t).table, PcOf(s.pc, t).chan);
    var pc := PcOf(s.pc, t);
    var to := AfterIndex(cfg, pc.table, pc.chan);
    assert PcFine(cfg, pc);
    IndexSet(s.tIndex, t, s'.tIndex[t]);
    forall o, k | k in Index(s'.tIndex, o)
      ensures k.table < cfg.tables && MayIndex(PcOf(s.pc, o), k.table, Chan(cfg, k))
      ensures o == t ==> MayIndex(to, k.table, Chan(cfg, k))
    {
      assert k in Index(s.tIndex, o);
      assert cfg.HasServer(cfg.home(k));
    }
    PcFlushes(cfg, s.pc, s.tOplog, s'.tIndex, s.tCache, t, to);
  }

  /** What leaves the thread's index is in the shared index. */
  lemma AddIndexCoverage(cfg: Config, s: State, t: Thread)
    requires |s.place| == |s.log|
    requires Coverage(cfg, s.log, s.place, s.ticks, s.tIndex, s.sIndex, s.bg)
    requires cfg.HasThread(t) && PcOf(s.pc, t).FlushIndex?
    ensures var s' := DoAddIndex(cfg, s, t, PcOf(s.pc, t).table, PcOf(s.pc, t).chan);
      Coverage(cfg, s'.log, s'.place, s'.ticks, s'.tIndex, s'.sIndex, s'.bg)
  {
    var s' := DoAddIndex(cfg, s, t, PcOf(s.pc, t).table, PcOf(s.pc, t).chan);
    IndexSet(s.tIndex, t, s'.tIndex[t]);
    IndexSet(s.sIndex, t.client, s'.sIndex[t.client]);
    forall i | 0 <= i < |s.place| && s.place[i] == InTable
      ensures Covered(cfg, s.log[i], s'.ticks, s'.tIndex, s'.sIndex, s'.bg)
    {
      assert Covered(cfg, s.log[i], s.ticks, s.tIndex, s.sIndex, s.bg);
    }
  }

  // ---- TickClock ----

  lemma TickKeeps(cfg: Config, s: State, t: Thread)
    requires Inv(cfg, s) && cfg.HasThread(t) && PcOf(s.pc, t) == Ticking
    ensures Inv(cfg, DoTick(cfg, s, t))
  {
    hide LogOk, ThreadOplogs, TableOplogs, Cancelled, Gathered, Batches, ServerRows, Clocks, Bgs, Flushes, Coverage,
         InTime, Network, Copies, PRows, Downstream, ServerKeys, Coherent, RowsFresh, SysClocks, ThreadRows, CellsOk,
         ServerCells;
    TickClocks(cfg, s, t);
    TickFlushes(cfg, s, t);
    TickCoverage(cfg, s, t);
    TickThreadRows(cfg, s, t);
  }

  lemma TickClocks(cfg: Config, s: State, t: Thread)
    requires Clocks(cfg, s.clock, s.pc, s.ticks, s.posted) && cfg.HasThread(t) && PcOf(s.pc, t) == Ticking
    ensures var s' := DoTick(cfg, s, t); Clocks(cfg, s'.clock, s'.pc, s'.ticks, s'.posted)
  {
    var pc' := s.pc[t := if UniqueMin(cfg, s.ticks, t) then Posting(0) else Running];
    var ticks' := s.ticks[t := Clock(s.ticks, t) + 1];
    TickClockTicks(s.clock, s.pc, s.ticks, t, pc'[t]);
    forall a, b | cfg.HasThread(a) && cfg.HasThread(b) && b.client == a.client
      ensures Poster(cfg, pc', ticks', s.posted, a, b)
    {
      assert PostedBy(cfg, s.ticks, s.posted, a);
      assert Poster(cfg, s.pc, s.ticks, s.posted, a, b);
      TickPoster(cfg, s.pc, s.ticks, s.posted, t, a, b);
    }
    forall a | cfg.HasThread(a) ensures PostedBy(cfg, ticks', s.posted, a) {
      assert PostedBy(cfg, s.ticks, s.posted, a);
      ClockSet(s.ticks, t, ticks'[t]);
    }
    hide Poster, PostedBy, ClockTicks;
  }

  lemma TickClockTicks(clock: map<Thread, nat>, pc: map<Thread, Pc>, ticks: map<Thread, nat>, t: Thread, to: Pc)
    requires ClockTicks(clock, pc, ticks) && PcOf(pc, t) == Ticking && (to.Running? || to.Posting?)
    ensures ClockTicks(clock, pc[t := to], ticks[t := Clock(ticks, t) + 1])
  {
    PcSet(pc, t, to);
    ClockSet(ticks, t, Clock(ticks, t) + 1);
  }

  /** Only a thread that is alone the slowest starts to post, and then no other thread is posting. */
  lemma TickPoster(cfg: Config, pc: map<Thread, Pc>, ticks: map<Thread, nat>, posted: map<(nat, nat), nat>,
                   t: Thread, a: Thread, b: Thread)
    requires cfg.HasThread(t) && PcOf(pc, t) == Ticking
    requires cfg.HasThread(a) && cfg.HasThread(b) && b.client == a.client
    requires PostedBy(cfg, ticks, posted, a) && Poster(cfg, pc, ticks, posted, a, b)
    requires UniqueMin(cfg, ticks, t) && a == t ==> PcOf(pc, b).Posting? ==> Poster(cfg, pc, ticks, posted, b, a)
    ensures Poster(cfg, pc[t := if UniqueMin(cfg, ticks, t) then Posting(0) else Running],
                   ticks[t := Clock(ticks, t) + 1], posted, a, b)
  {
    var to := if UniqueMin(cfg, ticks, t) then Posting(0) else Running;
    PcSet(pc, t, to);
    ClockSet(ticks, t, Clock(ticks, t) + 1);
  }

  lemma TickFlushes(cfg: Config, s: State, t: Thread)
    requires Flushes(cfg, s.pc, s.tOplog, s.tIndex, s.tCache) && cfg.HasThread(t) && PcOf(s.pc, t) == Ticking
    ensures var s' := DoTick(cfg, s, t); Flushes(cfg, s'.pc, s'.tOplog, s'.tIndex, s'.tCache)
  {
    var s' := DoTick(cfg, s, t);
    PcFlushes(cfg, s.pc, s.tOplog, s.tIndex, s.tCache, t, s'.pc[t]);
  }

  /** When a thread ticks, none of its updates is in a thread oplog, and its index is empty. */
  lemma TickCoverage(cfg: Config, s: State, t: Thread)
    requires |s.place| == |s.log| && ThreadOplogs(s.log, s.place, s.tOplog)
    requires Flushes(cfg, s.pc, s.tOplog, s.tIndex, s.tCache)
    requires Coverage(cfg, s.log, s.place, s.ticks, s.tIndex, s.sIndex, s.bg)
    requires cfg.HasThread(t) && PcOf(s.pc, t) == Ticking
    ensures var s' := DoTick(cfg, s, t);
      Coverage(cfg, s'.log, s'.place, s'.ticks, s'.tIndex, s'.sIndex, s'.bg)
  {
    var s' := DoTick(cfg, s, t);
    ClockSet(s.ticks, t, s'.ticks[t]);
    forall i | 0 <= i < |s.place| && s.place[i] == InTable
      ensures Covered(cfg, s.log[i], s'.ticks, s.tIndex, s.sIndex, s.bg)
    {
      assert Covered(cfg, s.log[i], s.ticks, s.tIndex, s.sIndex, s.bg);
    }
    forall i | 0 <= i < |s.place| && s.place[i] == InThread
      ensures Clock(s'.ticks, s.log[i].thread) <= s.log[i].clock
    {
      assert (s.log[i].thread, s.log[i].key) in s.tOplog;
    }
  }

  lemma TickThreadRows(cfg: Config, s: State, t: Thread)
    requires |s.place| == |s.log| && ThreadRows(cfg, s.log, s.place, s.clock, s.pc, s.ticks, s.tOplog, s.tCache)
    requires Flushes(cfg, s.pc, s.tOplog, s.tIndex, s.tCache) && cfg.HasThread(t) && PcOf(s.pc, t) == Ticking
    ensures var s' := DoTick(cfg, s, t);
      ThreadRows(cfg, s'.log, s'.place, s'.clock, s'.pc, s'.ticks, s'.tOplog, s'.tCache)
  {
    var s' := DoTick(cfg, s, t);
    PcSet(s.pc, t, s'.pc[t]);
    forall w | w in s.tCache && PcOf(s'.pc, w.0) == Running
      ensures ThreadRow(cfg, s.log, s.place, s.clock, s'.ticks, w.0, w.1, Oplog(s.tOplog, w), s.tCache[w])
    {
      assert MayHold(PcOf(s.pc, w.0), w.1.table);
      assert ThreadRow(cfg, s.log, s.place, s.clock, s.ticks, w.0, w.1, Oplog(s.tOplog, w), s.tCache[w]);
      TickAllTicked(cfg, s.ticks, t, StalestAt(cfg, s.clock, w.0, w.1.table));
      hide CellOk, Fresh, AllTicked;
    }
    hide ThreadRow, Flushes;
  }

  lemma TickAllTicked(cfg: Config, ticks: map<Thread, nat>, t: Thread, m: int)
    requires AllTicked(cfg, ticks, m)
    ensures AllTicked(cfg, ticks[t := Clock(ticks, t) + 1], m)
  {
    ClockSet(ticks, t, Clock(ticks, t) + 1);
    forall o | cfg.HasThread(o) ensures m <= Clock(ticks[t := Clock(ticks, t) + 1], o) {
      assert m <= Clock(ticks, o);
    }
  }

  // ---- Post ----

  lemma PostKeeps(cfg: Config, s: State, t: Thread)
    requires Inv(cfg, s) && cfg.HasThread(t) && PcOf(s.pc, t).Posting?
    ensures Inv(cfg, DoPost(cfg, s, t, PcOf(s.pc, t).chan))
  {
    hide LogOk, ThreadOplogs, TableOplogs, Cancelled, Gathered, Batches, ServerRows, Clocks, Bgs, Flushes, Coverage,
         InTime, Network, Copies, PRows, Downstream, ServerKeys, Coherent, RowsFresh, SysClocks, ThreadRows, CellsOk,
         ServerCells;
    PostClocks(cfg, s, t);
    PostBgs(cfg, s, t);
    PostFlushes(cfg, s, t);
    PostThreadRows(cfg, s, t);
  }

  lemma PostClocks(cfg: Config, s: State, t: Thread)
    requires Clocks(cfg, s.clock, s.pc, s.ticks, s.posted) && cfg.HasThread(t) && PcOf(s.pc, t).Posting?
    requires Flushes(cfg, s.pc, s.tOplog, s.tIndex, s.tCache)
    ensures var s' := DoPost(cfg, s, t, PcOf(s.pc, t).chan); Clocks(cfg, s'.clock, s'.pc, s'.ticks, s'.posted)
  {
    assert PcFine(cfg, PcOf(s.pc, t));
    PostMaps(cfg, s.clock, s.pc, s.ticks, s.posted, t);
    hide Flushes, PcFine, Clocks;
  }

  lemma PostMaps(cfg: Config, clock: map<Thread, nat>, pc: map<Thread, Pc>, ticks: map<Thread, nat>,
                 posted: map<(nat, nat), nat>, t: Thread)
    requires Clocks(cfg, clock, pc, ticks, posted) && cfg.HasThread(t)
    requires PcOf(pc, t).Posting? && PcOf(pc, t).chan < cfg.channels
    ensures var p := PcOf(pc, t).chan;
      Clocks(cfg, clock, pc[t := if p + 1 < cfg.channels then Posting(p + 1) else Running], ticks,
             posted[(t.client, p) := Posted(posted, t.client, p) + 1])
  {
    var p := PcOf(pc, t).chan;
    var to := if p + 1 < cfg.channels then Posting(p + 1) else Running;
    var posted' := posted[(t.client, p) := Posted(posted, t.client, p) + 1];
    PostClockTicks(clock, pc, ticks, t, to);
    hide ClockTicks, PostedBy, Poster;
    forall a | cfg.HasThread(a) ensures PostedBy(cfg, ticks, posted', a) {
      assert PostedBy(cfg, ticks, posted, a);
      assert a.client == t.client ==> Poster(cfg, pc, ticks, posted, t, a);
      PostPosted(cfg, pc, ticks, posted, t, a);
    }
    forall a, b | cfg.HasThread(a) && cfg.HasThread(b) && b.client == a.client
      ensures Poster(cfg, pc[t := to], ticks, posted', a, b)
    {
      assert Poster(cfg, pc, ticks, posted, a, b);
      assert a.client == t.client ==> Poster(cfg, pc, ticks, posted, t, a);
      PostPoster(cfg, pc, ticks, posted, t, a, b);
    }
  }

  lemma PostClockTicks(clock: map<Thread, nat>, pc: map<Thread, Pc>, ticks: map<Thread, nat>, t: Thread, to: Pc)
    requires ClockTicks(clock, pc, ticks) && PcOf(pc, t).Posting? && (to.Running? || to.Posting?)
    ensures ClockTicks(clock, pc[t := to], ticks)
  {
    PcSet(pc, t, to);
  }

  /** The poster has ticked past what was posted, and so has everybody else. */
  lemma PostPosted(cfg: Config, pc: map<Thread, Pc>, ticks: map<Thread, nat>, posted: map<(nat, nat), nat>,
                   t: Thread, a: Thread)
    requires PcOf(pc, t).Posting? && PcOf(pc, t).chan < cfg.channels
    requires PostedBy(cfg, ticks, posted, a)
    requires a.client == t.client ==> Poster(cfg, pc, ticks, posted, t, a)
    ensures var p := PcOf(pc, t).chan;
      PostedBy(cfg, ticks, posted[(t.client, p) := Posted(posted, t.client, p) + 1], a)
  {
    var p := PcOf(pc, t).chan;
    PostedSet(posted, t.client, p, Posted(posted, t.client, p) + 1);
  }

  lemma PostPoster(cfg: Config, pc: map<Thread, Pc>, ticks: map<Thread, nat>, posted: map<(nat, nat), nat>,
                   t: Thread, a: Thread, b: Thread)
    requires PcOf(pc, t).Posting? && b.client == a.client
    requires Poster(cfg, pc, ticks, posted, a, b)
    requires a.client == t.client ==> Poster(cfg, pc, ticks, posted, t, a)
    ensures var p := PcOf(pc, t).chan;
      Poster(cfg, pc[t := if p + 1 < cfg.channels then Posting(p + 1) else Running], ticks,
             posted[(t.client, p) := Posted(posted, t.client, p) + 1], a, b)
  {
    var p := PcOf(pc, t).chan;
    var to := if p + 1 < cfg.channels then Posting(p + 1) else Running;
    PcSet(pc, t, to);
    PostedSet(posted, t.client, p, Posted(posted, t.client, p) + 1);
    if PcOf(pc[t := to], a).Posting? {
      assert PcOf(pc, a).Posting?;
    }
  }

  lemma PostBgs(cfg: Config, s: State, t: Thread)
    requires Bgs(cfg, s.posted, s.bg) && cfg.HasThread(t) && PcOf(s.pc, t).Posting?
    ensures Bgs(cfg, DoPost(cfg, s, t, PcOf(s.pc, t).chan).posted, s.bg)
  {
    var s' := DoPost(cfg, s, t, PcOf(s.pc, t).chan);
    var p := PcOf(s.pc, t).chan;
    PostedSet(s.posted, t.client, p, s'.posted[(t.client, p)]);
    forall c: nat, q: nat | cfg.HasBg(c, q) ensures BgFine(cfg, Posted(s'.posted, c, q), BgOf(s.bg, c, q), q) {
      assert BgFine(cfg, Posted(s.posted, c, q), BgOf(s.bg, c, q), q);
    }
  }

  lemma PostFlushes(cfg: Config, s: State, t: Thread)
    requires Flushes(cfg, s.pc, s.tOplog, s.tIndex, s.tCache) && cfg.HasThread(t) && PcOf(s.pc, t).Posting?
    ensures var s' := DoPost(cfg, s, t, PcOf(s.pc, t).chan); Flushes(cfg, s'.pc, s'.tOplog, s'.tIndex, s'.tCache)
  {
    var s' := DoPost(cfg, s, t, PcOf(s.pc, t).chan);
    PcFlushes(cfg, s.pc, s.tOplog, s.tIndex, s.tCache, t, s'.pc[t]);
  }

  lemma PostThreadRows(cfg: Config, s: State, t: Thread)
    requires |s.place| == |s.log| && ThreadRows(cfg, s.log, s.place, s.clock, s.pc, s.ticks, s.tOplog, s.tCache)
    requires Flushes(cfg, s.pc, s.tOplog, s.tIndex, s.tCache) && cfg.HasThread(t) && PcOf(s.pc, t).Posting?
    ensures var s' := DoPost(cfg, s, t, PcOf(s.pc, t).chan);
      ThreadRows(cfg, s'.log, s'.place, s'.clock, s'.pc, s'.ticks, s'.tOplog, s'.tCache)
  {
    var s' := DoPost(cfg, s, t, PcOf(s.pc, t).chan);
    PcSet(s.pc, t, s'.pc[t]);
    forall w | w in s.tCache ensures w.0 != t {
      assert MayHold(PcOf(s.pc, w.0), w.1.table);
    }
    ThreadRowsAtPc(cfg, s, t, s.clock, s'.pc);
  }
}
