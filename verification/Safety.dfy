/** What holds in every run of the protocol. */
module Safety {
  import opened Rows
  import opened VectorClocks
  import opened ServerSpec
  import opened Protocol
  import opened Invariant
  import ClockSteps
  import UpdateSteps
  import FlushSteps
  import ReadSteps
  import BgSteps
  import SendSteps
  import ServeSteps
  import ApplySteps
  import DeliverSteps

  lemma StepKeeps(cfg: Config, s: State, step: Step)
    requires Inv(cfg, s) && Can(cfg, s, step)
    ensures Inv(cfg, Next(cfg, s, step))
  {
    hide Inv, MayUpdate, MayFlush, MayEndFlush, MayFetch, MayStart, MayTake, MayErase, MayPack, MaySend, MayFinish,
         MayServe, MayDeliver, MaySysTick, DoInc, DoThreadInc, DoFlushRow, DoClockBegin, DoEndFlush, DoAddIndex, DoTick,
         DoPost, DoFetch, DoStart, DoTake, DoErase, DoPack, DoSend, DoFinish, DoRequest, DoServe, DoDeliver;
    match step
    case Inc(t, key, delta) => UpdateSteps.IncKeeps(cfg, s, t, key, delta);
    case ThreadInc(t, key, delta) => UpdateSteps.ThreadIncKeeps(cfg, s, t, key, delta);
    case FlushRow(t, key, indexed) => FlushSteps.FlushRowKeeps(cfg, s, t, key, indexed);
    case ClockBegin(t) => ClockSteps.ClockBeginKeeps(cfg, s, t);
    case EndFlush(t) => ClockSteps.EndFlushKeeps(cfg, s, t);
    case AddIndex(t) => ClockSteps.AddIndexKeeps(cfg, s, t);
    case TickClock(t) => ClockSteps.TickKeeps(cfg, s, t);
    case Post(t) => ClockSteps.PostKeeps(cfg, s, t);
    case Fetch(t, key) => ReadSteps.FetchKeeps(cfg, s, t, key);
    case Forget(t, table) => ReadSteps.ForgetKeeps(cfg, s, t, table);
    case BgStart(c, p, isClock) => BgSteps.StartKeeps(cfg, s, c, p, isClock);
    case BgTake(c, p) => BgSteps.TakeKeeps(cfg, s, c, p);
    case BgErase(c, p, key) => BgSteps.EraseKeeps(cfg, s, c, p, key);
    case BgPack(c, p) => SendSteps.PackKeeps(cfg, s, c, p);
    case BgSend(c, p) => SendSteps.SendKeeps(cfg, s, c, p);
    case BgFinish(c, p) => SendSteps.FinishKeeps(cfg, s, c, p);
    case BgRequest(c, key, asked) => SendSteps.RequestKeeps(cfg, s, c, key, asked);
    case Serve(c, v) => ApplySteps.ServeKeeps(cfg, s, c, v);
    case Deliver(c, v) => DeliverSteps.DeliverKeeps(cfg, s, c, v);
    case SysTick(c) => ReadSteps.SysTickKeeps(cfg, s, c);
    case Evict(c, key) => ReadSteps.EvictKeeps(cfg, s, c, key);
  }

  lemma {:induction false} EveryRunKeeps(cfg: Config, steps: seq<Step>)
    requires Legal(cfg, steps)
    ensures Inv(cfg, Run(cfg, steps))
    decreases |steps|
  {
    hide Inv, Can, Next;
    if steps == [] {
      InitInv(cfg);
    } else {
      var n := |steps| - 1;
      EveryRunKeeps(cfg, steps[..n]);
      StepKeeps(cfg, Run(cfg, steps[..n]), steps[n]);
    }
  }

  // ---- Reads ----

  /** `row` is, in every column, the sum of the updates in `ids`, each counted once, and they are all of that row. */
  ghost predicate Shows(log: seq<Upd>, key: Key, row: Row, ids: set<nat>) {
    && (forall col :: Val(row, col) == Sum(log, ids, col))
    && (forall i: nat {:trigger i in ids} :: i in ids ==> i < |log| && log[i].key == key)
  }

  /** `ids` has every update of the row that any thread made in an iteration before `m`. */
  ghost predicate HasAllBefore(log: seq<Upd>, key: Key, ids: set<nat>, m: int) {
    forall i :: 0 <= i < |log| && log[i].key == key && log[i].clock < m ==> i in ids
  }

  /** `ids` has every update of the row by client c that has left the thread oplogs. */
  ghost predicate HasOwn(log: seq<Upd>, place: seq<Place>, key: Key, c: nat, ids: set<nat>)
    requires |place| == |log|
  {
    forall i :: (0 <= i < |log| && log[i].key == key && log[i].thread.client == c && place[i] != InThread) ==> i in ids
  }

  /** Updates that cancelled out in a thread oplog can be counted in, because they add up to zero. */
  lemma CountGone(log: seq<Upd>, place: seq<Place>, gone: map<Key, Cell>, key: Key, cell: Cell, m: int)
    requires |place| == |log| && Cancelled(log, place, gone) && AllOk(log, gone)
    requires CellOk(log, cell) && Fresh(log, place, key, cell.ids, m)
    requires forall i: nat :: i in cell.ids ==> i < |place| && place[i] != Gone && log[i].key == key
    ensures var ids := cell.ids + Oplog(gone, key).ids;
      Shows(log, key, cell.vals, ids) && HasAllBefore(log, key, ids, m)
  {
    var lost := Oplog(gone, key);
    assert CellOk(log, lost) by { OplogOk(log, gone, key); }
    forall col ensures Val(cell.vals, col) == Sum(log, cell.ids + lost.ids, col) {
      assert Val(lost.vals, col) == 0;
      SumUnion(log, cell.ids, lost.ids, col);
    }
  }

  /** The row in a client's process cache, and the updates that it shows. */
  function Cached(s: State, c: nat, key: Key): (Row, set<nat>)
    requires (c, key) in s.pRow
  {
    (s.pRow[(c, key)].cell.vals, s.pRow[(c, key)].cell.ids + Oplog(s.gone, key).ids)
  }

  /** The SSP guarantee. When the check that a read makes lets it through: the row it returns is the sum of a set of
      updates that has every update any thread made in iterations before the reader's clock minus the staleness of
      the table, and every update of the reader's own process that has left the thread oplogs; and no thread is
      further behind than the staleness. */
  lemma StalenessBound(cfg: Config, steps: seq<Step>, t: Thread, key: Key)
    requires Legal(cfg, steps)
    requires cfg.HasThread(t) && FreshEnough(cfg, Run(cfg, steps), t, key)
    ensures var s := Run(cfg, steps);
      var m := Clock(s.clock, t) - cfg.staleness[key.table];
      var (row, ids) := Cached(s, t.client, key);
      && Shows(s.log, key, row, ids)
      && HasAllBefore(s.log, key, ids, m)
      && |s.place| == |s.log| && HasOwn(s.log, s.place, key, t.client, ids)
      && AllTicked(cfg, s.ticks, m)
  {
    hide Run, Legal, FreshEnough, Inv, Shows, HasAllBefore, HasOwn, AllTicked;
    EveryRunKeeps(cfg, steps);
    ReadShows(cfg, Run(cfg, steps), t, key);
  }

  lemma ReadShows(cfg: Config, s: State, t: Thread, key: Key)
    requires Inv(cfg, s) && cfg.HasThread(t) && FreshEnough(cfg, s, t, key)
    ensures var m := Clock(s.clock, t) - cfg.staleness[key.table];
      var (row, ids) := Cached(s, t.client, key);
      && Shows(s.log, key, row, ids)
      && HasAllBefore(s.log, key, ids, m)
      && |s.place| == |s.log| && HasOwn(s.log, s.place, key, t.client, ids)
      && AllTicked(cfg, s.ticks, m)
  {
    hide ThreadOplogs, TableOplogs, Gathered, Batches, ServerRows, Copies, Downstream, ServerKeys, Coherent, RowsFresh,
         SysClocks, ThreadRows, AllOk, AllBgCells, ServerCells, CellOk, Timing, AllTicked, Fresh, LogOk, PRowOk,
         Cancelled, HasOwn, HasAllBefore, Shows;
    ReadSteps.CachedRowIsFresh(cfg, s, t, key);
    var w, m := (t.client, key), StalestAt(cfg, s.clock, t, key.table);
    assert w in s.pRow;
    hide FreshEnough;
    var ids := s.pRow[w].cell.ids + Oplog(s.gone, key).ids;
    assert PRowOk(s.log, s.place, w.0, w.1, |BgOf(s.bg, w.0, Chan(cfg, w.1)).saved|, s.pRow[w]);
    CachedShows(s.log, s.place, s.gone, t.client, key, |BgOf(s.bg, w.0, Chan(cfg, w.1)).saved|, s.pRow[w], m);
    AllBefore(s.log, key, ids, m, Clock(s.clock, t) - cfg.staleness[key.table]);
    FewerTicks(cfg, s.ticks, m, Clock(s.clock, t) - cfg.staleness[key.table]);
  }

  lemma FewerTicks(cfg: Config, ticks: map<Thread, nat>, m: int, n: int)
    requires AllTicked(cfg, ticks, m) && n <= m
    ensures AllTicked(cfg, ticks, n)
  {
    forall o | cfg.HasThread(o) ensures n <= Clock(ticks, o) {
    }
  }

  lemma CachedShows(log: seq<Upd>, place: seq<Place>, gone: map<Key, Cell>, c: nat, key: Key, upto: nat, r: PRow,
                    m: int)
    requires |place| == |log| && PRowOk(log, place, c, key, upto, r) && Fresh(log, place, key, r.base, m)
    requires Cancelled(log, place, gone) && AllOk(log, gone)
    ensures var ids := r.cell.ids + Oplog(gone, key).ids;
      Shows(log, key, r.cell.vals, ids) && HasAllBefore(log, key, ids, m) && HasOwn(log, place, key, c, ids)
  {
    hide AllOk, CellOk;
    ReadSteps.FreshMore(log, place, key, r.base, r.cell.ids, m);
    CountGone(log, place, gone, key, r.cell, m);
    hide Shows, HasAllBefore, Fresh;
    forall i | 0 <= i < |log| && log[i].key == key && log[i].thread.client == c && place[i] != InThread
      ensures i in r.cell.ids + Oplog(gone, key).ids
    {
      assert place[i] == Gone || Left(place[i]);
    }
  }

  lemma AllBefore(log: seq<Upd>, key: Key, ids: set<nat>, m: int, n: int)
    requires HasAllBefore(log, key, ids, m) && n <= m
    ensures HasAllBefore(log, key, ids, n)
  {
  }

  /** The same for reads from the thread cache, for as long as the row is there; and a thread sees its own updates
      at once. */
  lemma ThreadCacheStaleness(cfg: Config, steps: seq<Step>, t: Thread, key: Key)
    requires Legal(cfg, steps)
    requires (t, key) in Run(cfg, steps).tCache && PcOf(Run(cfg, steps).pc, t) == Running
    ensures key.table < cfg.tables
    ensures var s := Run(cfg, steps);
      var row := s.tCache[(t, key)];
      var m := Clock(s.clock, t) - cfg.staleness[key.table];
      && |s.place| == |s.log| && CellOk(s.log, row)
      && Fresh(s.log, s.place, key, row.ids, m)
      && HasUnflushed(s.log, s.place, t, key, row.ids)
      && AllTicked(cfg, s.ticks, m)
  {
    hide Run, Legal, Inv, CellOk, Fresh, HasUnflushed, AllTicked;
    EveryRunKeeps(cfg, steps);
    ThreadReadShows(cfg, Run(cfg, steps), t, key);
  }

  /** `ids` has every update of the row that is still in t's thread oplog. */
  ghost predicate HasUnflushed(log: seq<Upd>, place: seq<Place>, t: Thread, key: Key, ids: set<nat>)
    requires |place| == |log|
  {
    forall i :: (0 <= i < |log| && log[i].key == key && log[i].thread == t && place[i] == InThread) ==> i in ids
  }

  lemma ThreadReadShows(cfg: Config, s: State, t: Thread, key: Key)
    requires Inv(cfg, s) && (t, key) in s.tCache && PcOf(s.pc, t) == Running
    ensures key.table < cfg.tables
    ensures var row := s.tCache[(t, key)];
      var m := Clock(s.clock, t) - cfg.staleness[key.table];
      && |s.place| == |s.log| && CellOk(s.log, row)
      && Fresh(s.log, s.place, key, row.ids, m)
      && HasUnflushed(s.log, s.place, t, key, row.ids)
      && AllTicked(cfg, s.ticks, m)
  {
    hide TableOplogs, Cancelled, Gathered, Batches, ServerRows, Timing, Values, Copies, PRows, Downstream,
         ServerKeys, Coherent, RowsFresh, SysClocks, CellOk;
    var row, mine := s.tCache[(t, key)], Oplog(s.tOplog, (t, key));
    assert ThreadRow(cfg, s.log, s.place, s.clock, s.ticks, t, key, mine, row);
    hide ThreadRows;
    var m := StalestAt(cfg, s.clock, t, key.table);
    ReadSteps.FreshDown(s.log, s.place, key, row.ids, m, Clock(s.clock, t) - cfg.staleness[key.table]);
    forall i | 0 <= i < |s.log| && s.log[i].key == key && s.log[i].thread == t && s.place[i] == InThread
      ensures i in row.ids
    {
      assert i in mine.ids;
    }
  }

  /** A barrier ticks the largest staleness plus one times; after it every read sees every update that was made
      before it by any thread. `c0` is the clock at which the threads called it. */
  lemma BarrierShowsAll(cfg: Config, steps: seq<Step>, t: Thread, key: Key, c0: nat, largest: nat)
    requires Legal(cfg, steps)
    requires cfg.HasThread(t) && FreshEnough(cfg, Run(cfg, steps), t, key)
    requires forall table :: 0 <= table < cfg.tables ==> cfg.staleness[table] <= largest
    requires c0 + largest + 1 <= Clock(Run(cfg, steps).clock, t)
    ensures var s := Run(cfg, steps);
      var (row, ids) := Cached(s, t.client, key);
      Shows(s.log, key, row, ids) && HasAllBefore(s.log, key, ids, c0 + 1)
  {
    hide Run, Legal, Shows, HasOwn, AllTicked;
    StalenessBound(cfg, steps, t, key);
  }

  /** A reply that is fresh enough lets the read pass that it answers. */
  lemma ReplyLetsReadPass(cfg: Config, steps: seq<Step>, t: Thread, v: Srv)
    requires Legal(cfg, steps) && MayDeliver(cfg, Run(cfg, steps), t.client, v) && !cfg.push && cfg.HasThread(t)
    requires var m := Queue(Run(cfg, steps).down, t.client, v)[0];
      m.Reply? && m.key.table < cfg.tables
      && Clock(Run(cfg, steps).clock, t) - cfg.staleness[m.key.table] <= m.clock
    ensures var s := Run(cfg, steps);
      FreshEnough(cfg, DoDeliver(s, t.client, v), t, Queue(s.down, t.client, v)[0].key)
  {
    hide Run, Legal, Inv, DoDeliver;
    EveryRunKeeps(cfg, steps);
    ReplyPasses(cfg, Run(cfg, steps), t, v);
  }

  lemma ReplyPasses(cfg: Config, s: State, t: Thread, v: Srv)
    requires Inv(cfg, s) && MayDeliver(cfg, s, t.client, v) && !cfg.push
    requires var m := Queue(s.down, t.client, v)[0];
      m.Reply? && m.key.table < cfg.tables && Clock(s.clock, t) - cfg.staleness[m.key.table] <= m.clock
    ensures FreshEnough(cfg, DoDeliver(s, t.client, v), t, Queue(s.down, t.client, v)[0].key)
  {
    hide Where, Timing, Values, Copies, PRows, ServerKeys, Coherent, RowsFresh, ThreadRows, ViewOf, Fresh, DoDeliver;
    DeliverSteps.HeadGood(cfg, s, t.client, v);
    assert 0 <= SysClockOf(s.sysClock, t.client) <= ClockAt(s.pushClock, t.client, v) <= ClockAt(s.seen, t.client, v);
    DeliverSteps.ReplyIsStored(s, t.client, v);
    DeliverSteps.DeliverState(s, t.client, v);
  }

  // ---- Copies and pushes ----

  /** Under SSPPush: once a client has consumed the push for clock m from a server, every row of that server that it
      caches has every update from iterations before m, whether or not the push carried the row. */
  lemma PushRefreshesAll(cfg: Config, steps: seq<Step>, c: nat, key: Key)
    requires Legal(cfg, steps) && (c, key) in Run(cfg, steps).pRow
    ensures var s := Run(cfg, steps);
      var (row, ids) := Cached(s, c, key);
      Shows(s.log, key, row, ids) && HasAllBefore(s.log, key, ids, ClockAt(s.pushClock, c, Home(cfg, key)))
  {
    hide Run, Legal, Inv, Shows, HasAllBefore;
    EveryRunKeeps(cfg, steps);
    PushShows(cfg, Run(cfg, steps), c, key);
  }

  lemma PushShows(cfg: Config, s: State, c: nat, key: Key)
    requires Inv(cfg, s) && (c, key) in s.pRow
    ensures var (row, ids) := Cached(s, c, key);
      Shows(s.log, key, row, ids) && HasAllBefore(s.log, key, ids, ClockAt(s.pushClock, c, Home(cfg, key)))
  {
    hide ThreadOplogs, TableOplogs, Gathered, Batches, ServerRows, Timing, Copies, Downstream, ServerKeys, Coherent,
         SysClocks, ThreadRows, AllOk, AllBgCells, ServerCells, CellOk, Cancelled, LogOk, PRowOk, Fresh, Shows,
         HasAllBefore, HasOwn;
    var w, v := (c, key), Home(cfg, key);
    var m := ClockAt(s.pushClock, c, v);
    assert PRowOk(s.log, s.place, w.0, w.1, |BgOf(s.bg, w.0, Chan(cfg, w.1)).saved|, s.pRow[w]);
    assert RowFresh(s.log, s.place, w.1, s.pRow[w], m, ClockAt(s.seen, c, v));
    CachedShows(s.log, s.place, s.gone, c, key, |BgOf(s.bg, w.0, Chan(cfg, w.1)).saved|, s.pRow[w], m);
  }

  predicate Carries(d: Down, key: Key) {
    match d
    case Reply(k, _, _, _) => k == key
    case Push(_, _, rows) => key in rows
  }

  function Carried(d: Down, key: Key): Cell
    requires Carries(d, key)
  {
    match d
    case Reply(_, _, _, copy) => copy
    case Push(_, _, rows) => rows[key]
  }

  /** The last message on its way that carries the row; |q| if none does. */
  function LastCopy(q: seq<Down>, key: Key): (n: nat)
    ensures n <= |q| && (n < |q| ==> Carries(q[n], key))
    decreases |q|
  {
    if q == [] then 0
    else
      var n := LastCopy(q[1..], key);
      if n < |q| - 1 then n + 1 else if Carries(q[0], key) then 0 else |q|
  }

  /** The view at the end is that of the last copy on its way, and without one it is the view now. */
  lemma {:induction false} EndViewIs(view: map<Key, set<nat>>, q: seq<Down>, key: Key)
    requires key in EndView(view, q)
    ensures var n := LastCopy(q, key);
      if n < |q| then EndView(view, q)[key] == Carried(q[n], key).ids
      else key in view && EndView(view, q)[key] == view[key]
    decreases |q|
  {
    if q != [] {
      EndViewIs(Seen(view, q[0]), q[1..], key);
    }
  }

  /** Under SSPPush: a client that holds a copy of a row is subscribed to it; and if the row is clean at the server,
      then the last copy sent to the client has the updates that the row has now. If that copy is on its way, it has the
      row's numbers. If it was taken in, then the cached row has the row's numbers and, on top of them, updates by the
      client's own threads, each once. */
  lemma CleanMeansSent(cfg: Config, steps: seq<Step>, c: nat, v: Srv, key: Key)
    requires Legal(cfg, steps) && cfg.push && c < |cfg.threads| && cfg.HasServer(v)
    requires var s := Run(cfg, steps); key in EndView(ViewOf(cfg, s.pRow, c, v), Queue(s.down, c, v))
    ensures var s := Run(cfg, steps);
      && (c, key) in SrvOf(cfg, s.srv, v).subs
      && (key !in SrvOf(cfg, s.srv, v).dirty ==>
            var row, q := SrvOf(cfg, s.srv, v).RowAt(key), Queue(s.down, c, v);
            var n := LastCopy(q, key);
            && EndView(ViewOf(cfg, s.pRow, c, v), q)[key] == row.ids
            && (n < |q| ==> SameNumbers(Carried(q[n], key).vals, row.vals))
            && (n == |q| ==> (c, key) in s.pRow && IsRowPlusOwn(s.log, c, key, s.pRow[(c, key)].cell, row)))
  {
    hide Run, Legal, Inv, SameNumbers, IsRowPlusOwn, EndView, ViewOf, LastCopy;
    EveryRunKeeps(cfg, steps);
    CleanShows(cfg, Run(cfg, steps), c, v, key);
  }

  /** The cell is the server's row with more of the client's own updates of that row. */
  ghost predicate IsRowPlusOwn(log: seq<Upd>, c: nat, key: Key, cell: Cell, row: Cell) {
    && (forall col :: Val(cell.vals, col) == Val(row.vals, col) + Sum(log, cell.ids - row.ids, col))
    && (forall i {:trigger i in cell.ids} :: i in cell.ids - row.ids ==>
          i < |log| && log[i].key == key && log[i].thread.client == c)
  }

  lemma CleanShows(cfg: Config, s: State, c: nat, v: Srv, key: Key)
    requires Inv(cfg, s) && cfg.push && c < |cfg.threads| && cfg.HasServer(v)
    requires key in EndView(ViewOf(cfg, s.pRow, c, v), Queue(s.down, c, v))
    ensures (c, key) in SrvOf(cfg, s.srv, v).subs
    ensures key !in SrvOf(cfg, s.srv, v).dirty ==>
      var row, q := SrvOf(cfg, s.srv, v).RowAt(key), Queue(s.down, c, v);
      var n := LastCopy(q, key);
      && EndView(ViewOf(cfg, s.pRow, c, v), q)[key] == row.ids
      && (n < |q| ==> SameNumbers(Carried(q[n], key).vals, row.vals))
      && (n == |q| ==> (c, key) in s.pRow && IsRowPlusOwn(s.log, c, key, s.pRow[(c, key)].cell, row))
  {
    hide Where, Timing, Copies, PRows, Downstream, ServerKeys, RowsFresh, SysClocks, ThreadRows, EndView, LastCopy,
         CellsOk, CellOk, SameNumbers, IsRowPlusOwn, Server.RowAt;
    var sv, q, view := SrvOf(cfg, s.srv, v), Queue(s.down, c, v), ViewOf(cfg, s.pRow, c, v);
    assert CoherentView(sv, c, EndView(view, q));
    if key !in sv.dirty {
      EndViewIs(view, q, key);
      var n, row := LastCopy(q, key), sv.RowAt(key);
      assert CellOk(s.log, row);
      if n < |q| {
        CopyCell(cfg, s.log, s.place, s.bg, s.down, c, v, n, key);
        SameIds(s.log, Carried(q[n], key), row);
      } else {
        assert (c, key) in s.pRow && view[key] == s.pRow[(c, key)].base;
        CachedCell(cfg, s.log, s.place, s.bg, s.pRow, c, key, row);
      }
    }
  }

  lemma SameIds(log: seq<Upd>, a: Cell, b: Cell)
    requires CellOk(log, a) && CellOk(log, b) && a.ids == b.ids
    ensures SameNumbers(a.vals, b.vals)
  {
  }

  lemma CopyCell(cfg: Config, log: seq<Upd>, place: seq<Place>, bg: map<(nat, nat), Bg>,
                 down: map<(nat, Srv), seq<Down>>, c: nat, v: Srv, n: nat, key: Key)
    requires |place| == |log| && Copies(cfg, log, place, bg, down) && c < |cfg.threads| && cfg.HasServer(v)
    requires n < |Queue(down, c, v)| && Carries(Queue(down, c, v)[n], key)
    ensures CellOk(log, Carried(Queue(down, c, v)[n], key))
  {
    hide CellOk, BaseOk, Queue;
    assert DownOk(cfg, log, place, c, v, |BgOf(bg, c, v.chan).saved|, Queue(down, c, v)[n]);
  }

  lemma CachedCell(cfg: Config, log: seq<Upd>, place: seq<Place>, bg: map<(nat, nat), Bg>,
                   pRow: map<(nat, Key), PRow>, c: nat, key: Key, row: Cell)
    requires |place| == |log| && PRows(cfg, log, place, bg, pRow) && (c, key) in pRow
    requires CellOk(log, row) && pRow[(c, key)].base == row.ids
    ensures IsRowPlusOwn(log, c, key, pRow[(c, key)].cell, row)
  {
    hide BaseOk;
    var w, r := (c, key), pRow[(c, key)];
    assert PRowOk(log, place, w.0, w.1, |BgOf(bg, w.0, Chan(cfg, w.1)).saved|, pRow[w]);
    assert r.cell.ids == row.ids + (r.cell.ids - row.ids);
    forall col ensures Val(r.cell.vals, col) == Val(row.vals, col) + Sum(log, r.cell.ids - row.ids, col) {
      SumUnion(log, row.ids, r.cell.ids - row.ids, col);
    }
  }

  /** A reply that carries version ver has, of the updates of the client that it is for, exactly those in that client's
      batches before ver; and it is as fresh as the clock it carries. */
  lemma ReplyReflectsVersion(cfg: Config, steps: seq<Step>, c: nat, v: Srv)
    requires Legal(cfg, steps) && c < |cfg.threads| && cfg.HasServer(v)
    requires Queue(Run(cfg, steps).down, c, v) != [] && Queue(Run(cfg, steps).down, c, v)[0].Reply?
    ensures var s := Run(cfg, steps);
      var m := Queue(s.down, c, v)[0];
      && |s.place| == |s.log| && CellOk(s.log, m.cell)
      && HasBatchesBefore(s.log, s.place, c, m.key, m.cell.ids, m.ver)
      && Fresh(s.log, s.place, m.key, m.cell.ids, m.clock)
  {
    hide Run, Legal, Inv, CellOk, HasBatchesBefore, Fresh;
    EveryRunKeeps(cfg, steps);
    ReplyShows(cfg, Run(cfg, steps), c, v);
  }

  ghost predicate HasBatchesBefore(log: seq<Upd>, place: seq<Place>, c: nat, key: Key, ids: set<nat>, ver: nat)
    requires |place| == |log|
  {
    forall i :: (0 <= i < |log| && log[i].thread.client == c && log[i].key == key) ==>
      (i in ids <==> place[i].Sent? && place[i].batch < ver)
  }

  lemma ReplyShows(cfg: Config, s: State, c: nat, v: Srv)
    requires Inv(cfg, s) && c < |cfg.threads| && cfg.HasServer(v)
    requires Queue(s.down, c, v) != [] && Queue(s.down, c, v)[0].Reply?
    ensures var m := Queue(s.down, c, v)[0];
      && |s.place| == |s.log| && CellOk(s.log, m.cell)
      && HasBatchesBefore(s.log, s.place, c, m.key, m.cell.ids, m.ver)
      && Fresh(s.log, s.place, m.key, m.cell.ids, m.clock)
  {
    hide Where, Timing, Values, PRows, ServerKeys, Coherent, RowsFresh, SysClocks, ThreadRows;
    DeliverSteps.HeadOk(cfg, s.log, s.place, s.bg, s.down, c, v);
    DeliverSteps.HeadGood(cfg, s, c, v);
    hide Copies, Downstream, CellOk, Fresh, ViewOf;
  }

  /** In every run the version number of a batch that a server takes is the one it expects, it is the whole of the
      batch that was meant for it, and its clock is one more than the sender's last. */
  lemma VersionsNeverMismatch(cfg: Config, steps: seq<Step>, c: nat, v: Srv)
    requires Legal(cfg, steps) && MayServe(cfg, Run(cfg, steps), c, v)
    requires Queue(Run(cfg, steps).up, c, v)[0].Batch?
    ensures var s := Run(cfg, steps);
      var m, sv, b := Queue(s.up, c, v)[0], SrvOf(cfg, s.srv, v), BgOf(s.bg, c, v.chan);
      && m.version == sv.Ver(c) < |b.saved|
      && m.rows == Restrict(cfg, b.saved[m.version], v)
      && c in sv.vc.clk && m.bgClock == sv.vc.clk[c] + 1
  {
    var s := Run(cfg, steps);
    EveryRunKeeps(cfg, steps);
    hide Run, Legal, Where, Caches, Values, Clocks, Bgs, Flushes, Coverage, InTime, Network;
    var m := Queue(s.up, c, v)[0];
    ApplySteps.VersionMatches(cfg, s, c, v, m.version, m.isClock, m.bgClock, m.rows);
  }

  // ---- Indexes and drains ----

  /** Every update that waits in a table oplog is named by its thread's index, by the shared index, or by what the
      background worker took and has yet to drain. */
  lemma IndexCoverage(cfg: Config, steps: seq<Step>, i: nat)
    requires Legal(cfg, steps) && i < |Run(cfg, steps).log| == |Run(cfg, steps).place|
    requires Run(cfg, steps).place[i] == InTable
    ensures var s := Run(cfg, steps);
      var u := s.log[i];
      || u.key in Index(s.tIndex, u.thread)
      || u.key in Index(s.sIndex, u.thread.client)
      || (BgFor(cfg, s.bg, u).pc.Drain? && u.key in BgFor(cfg, s.bg, u).pc.taken)
  {
    var s := Run(cfg, steps);
    EveryRunKeeps(cfg, steps);
    hide Run, Legal, Where, Caches, Values, Clocks, Bgs, Flushes, InTime, Network;
    assert Covered(cfg, s.log[i], s.ticks, s.tIndex, s.sIndex, s.bg);
  }

  /** When a worker has drained for a clock message, everything that any thread of its client wrote, up to and
      including the iteration that the message ends, is in this batch or an earlier one. */
  lemma DrainShipsAll(cfg: Config, steps: seq<Step>, c: nat, p: nat, i: nat)
    requires Legal(cfg, steps) && MayPack(cfg, Run(cfg, steps), c, p)
    requires BgOf(Run(cfg, steps).bg, c, p).pc.isClock
    requires i < |Run(cfg, steps).log|
    requires var s := Run(cfg, steps);
      var b := BgOf(s.bg, c, p);
      && s.log[i].thread.client == c && Chan(cfg, s.log[i].key) == p
      && s.log[i].clock <= b.hist[|b.hist| - 1]
    ensures var s := Run(cfg, steps); s.place[i] == InBg || s.place[i].Sent? || s.place[i] == Gone
  {
    hide Run, Legal, Inv, MayPack;
    EveryRunKeeps(cfg, steps);
    Drained(cfg, Run(cfg, steps), c, p, i);
  }

  lemma Drained(cfg: Config, s: State, c: nat, p: nat, i: nat)
    requires Inv(cfg, s) && MayPack(cfg, s, c, p) && BgOf(s.bg, c, p).pc.isClock && i < |s.log|
    requires s.log[i].thread.client == c && Chan(cfg, s.log[i].key) == p
    requires var b := BgOf(s.bg, c, p); s.log[i].clock <= b.hist[|b.hist| - 1]
    ensures s.place[i] == InBg || s.place[i].Sent? || s.place[i] == Gone
  {
    hide ThreadOplogs, TableOplogs, Cancelled, Gathered, Batches, ServerRows, Caches, Values, Flushes, Network;
    var u := s.log[i];
    assert cfg.HasThread(u.thread);
    assert InTimeAt(s.place[i], u, BgFor(cfg, s.bg, u));
    assert BgFine(cfg, Posted(s.posted, c, p), BgOf(s.bg, c, p), p);
    assert PostedBy(cfg, s.ticks, s.posted, u.thread);
    hide Clocks, Bgs, InTime, LogOk;
  }

  // ---- Reads that wait ----

  /** No reachable server has anybody waiting for a clock it has already reached. */
  lemma {:induction false} NobodyIsStranded(cfg: Config, steps: seq<Step>, v: Srv)
    requires Legal(cfg, steps) && cfg.HasServer(v)
    ensures NoneStranded(SrvOf(cfg, Run(cfg, steps).srv, v))
    decreases |steps|
  {
    hide Inv, Can, NoneStranded;
    if steps == [] {
      EmptyServer(cfg);
    } else {
      var n := |steps| - 1;
      NobodyIsStranded(cfg, steps[..n], v);
      EveryRunKeeps(cfg, steps[..n]);
      StepStrandsNobody(cfg, Run(cfg, steps[..n]), steps[n], v);
    }
  }

  lemma EmptyServer(cfg: Config)
    ensures NoneStranded(NoServer(cfg))
  {
  }

  lemma StepStrandsNobody(cfg: Config, s: State, step: Step, v: Srv)
    requires Inv(cfg, s) && Can(cfg, s, step) && cfg.HasServer(v) && NoneStranded(SrvOf(cfg, s.srv, v))
    ensures NoneStranded(SrvOf(cfg, Next(cfg, s, step).srv, v))
  {
    hide Inv, NoneStranded, MayUpdate, MayFlush, MayEndFlush, MayFetch, MayStart, MayTake, MayErase, MayPack, MaySend,
         MayFinish, MayDeliver, MaySysTick;
    if step.Serve? && step.v == v {
      ServeStrandsNobody(cfg, s, step.c, v);
    } else {
      OtherServer(cfg, s, step, v);
    }
  }

  /** Only serving touches a server, and only the one that serves. */
  lemma OtherServer(cfg: Config, s: State, step: Step, v: Srv)
    requires Can(cfg, s, step) && !(step.Serve? && step.v == v)
    ensures SrvOf(cfg, Next(cfg, s, step).srv, v) == SrvOf(cfg, s.srv, v)
  {
    hide DoDeliver, SrvOf;
    if step.Serve? {
      hide DoServe;
      OtherServe(cfg, s, step.c, step.v, v);
    } else if step.Deliver? {
      DeliverSteps.DeliverState(s, step.c, step.v);
    } else if step.BgStart? || step.BgTake? || step.BgErase? || step.BgPack? || step.BgSend? || step.BgFinish?
              || step.BgRequest? {
      WorkerServers(cfg, s, step);
    } else {
      ClientServers(cfg, s, step);
    }
  }

  lemma WorkerServers(cfg: Config, s: State, step: Step)
    requires Can(cfg, s, step)
    requires step.BgStart? || step.BgTake? || step.BgErase? || step.BgPack? || step.BgSend? || step.BgFinish?
             || step.BgRequest?
    ensures Next(cfg, s, step).srv == s.srv
  {
    hide Can;
  }

  lemma ClientServers(cfg: Config, s: State, step: Step)
    requires Can(cfg, s, step) && !step.Serve? && !step.Deliver?
    requires !(step.BgStart? || step.BgTake? || step.BgErase? || step.BgPack? || step.BgSend? || step.BgFinish?
               || step.BgRequest?)
    ensures Next(cfg, s, step).srv == s.srv
  {
    hide Can;
  }

  lemma OtherServe(cfg: Config, s: State, c: nat, u: Srv, v: Srv)
    requires Queue(s.up, c, u) != [] && u != v
    ensures SrvOf(cfg, DoServe(cfg, s, c, u).srv, v) == SrvOf(cfg, s.srv, v)
  {
    hide Server.OnOpLog, Server.OnRowRequest, Server.OutTo;
  }

  lemma ServeStrandsNobody(cfg: Config, s: State, c: nat, v: Srv)
    requires Inv(cfg, s) && MayServe(cfg, s, c, v) && NoneStranded(SrvOf(cfg, s.srv, v))
    ensures NoneStranded(SrvOf(cfg, DoServe(cfg, s, c, v).srv, v))
  {
    hide Where, Caches, Values, Clocks, Bgs, Flushes, Coverage, InTime, Network;
    var sv := SrvOf(cfg, s.srv, v);
    assert sv.vc.Valid() by { ServerClocks(cfg, s.bg, s.up, s.srv, v); }
    match Queue(s.up, c, v)[0] {
      case Ask(key, asked) =>
        var bound: nat := if asked < 0 then 0 else asked + 1;
        RequestStep(sv, cfg.push, RowRequest(c, key, asked), c, key, bound);
      case Batch(version, isClock, bgClock, rows) =>
        ApplySteps.VersionMatches(cfg, s, c, v, version, isClock, bgClock, rows);
        OpLogStep(sv, cfg.push, OpLog(c, isClock, bgClock, rows), c, Key(0, 0), sv.vc.min + 2);
    }
  }

  lemma ServerClocks(cfg: Config, bg: map<(nat, nat), Bg>, up: map<(nat, Srv), seq<Up>>, srv: map<Srv, Server>, v: Srv)
    requires Network(cfg, bg, up, srv) && cfg.HasServer(v)
    ensures SrvOf(cfg, srv, v).vc.Valid()
  {
    hide UpOk;
  }
}
