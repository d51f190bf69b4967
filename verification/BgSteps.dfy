/** The background worker: take the shared index table by table, erase the table oplogs it names, pack them into a
    batch, and send each server its part. */
module BgSteps {
  import opened Rows
  import opened VectorClocks
  import opened ServerSpec
  import opened Protocol
  import opened Invariant
  import opened Moves

  // ---- Frames: what only looks at the batches ----

  ghost predicate SameSaved(bg: map<(nat, nat), Bg>, bg': map<(nat, nat), Bg>) {
    forall c: nat, p: nat {:trigger BgOf(bg', c, p)} ::
      BgOf(bg', c, p).saved == BgOf(bg, c, p).saved && BgOf(bg', c, p).hist == BgOf(bg, c, p).hist
  }

  lemma PcSaved(bg: map<(nat, nat), Bg>, c: nat, p: nat, pc: BgPc)
    ensures SameSaved(bg, bg[(c, p) := BgOf(bg, c, p).(pc := pc)])
  {
  }

  lemma SameBatches(cfg: Config, log: seq<Upd>, place: seq<Place>, bg: map<(nat, nat), Bg>, bg': map<(nat, nat), Bg>)
    requires |place| == |log| && Batches(cfg, log, place, bg) && SameSaved(bg, bg')
    ensures Batches(cfg, log, place, bg')
  {
    forall i | 0 <= i < |place| && place[i].Sent?
      ensures var b := BgFor(cfg, bg', log[i]);
        var n := place[i].batch;
        n < |b.saved| && log[i].key in b.saved[n] && i in b.saved[n][log[i].key].ids
    {
      assert BgFor(cfg, bg', log[i]).saved == BgFor(cfg, bg, log[i]).saved;
    }
    forall c: nat, p: nat, n, k, i: nat | cfg.HasBg(c, p) && 0 <= n < |BgOf(bg', c, p).saved|
                                          && k in BgOf(bg', c, p).saved[n] && i in BgOf(bg', c, p).saved[n][k].ids
      ensures i < |place| && place[i] == Sent(n)
      ensures log[i].thread.client == c && log[i].key == k && Chan(cfg, k) == p
    {
      assert i in BgOf(bg, c, p).saved[n][k].ids;
    }
  }

  lemma SameCopies(cfg: Config, log: seq<Upd>, place: seq<Place>, bg: map<(nat, nat), Bg>, bg': map<(nat, nat), Bg>,
                   down: map<(nat, Srv), seq<Down>>)
    requires |place| == |log| && Copies(cfg, log, place, bg, down) && SameSaved(bg, bg')
    ensures Copies(cfg, log, place, bg', down)
  {
    hide DownOk;
  }

  lemma SamePRows(cfg: Config, log: seq<Upd>, place: seq<Place>, bg: map<(nat, nat), Bg>, bg': map<(nat, nat), Bg>,
                  pRow: map<(nat, Key), PRow>)
    requires |place| == |log| && PRows(cfg, log, place, bg, pRow) && SameSaved(bg, bg')
    ensures PRows(cfg, log, place, bg', pRow)
  {
    hide PRowOk;
  }

  lemma SameNetwork(cfg: Config, bg: map<(nat, nat), Bg>, bg': map<(nat, nat), Bg>, up: map<(nat, Srv), seq<Up>>,
                    srv: map<Srv, Server>)
    requires Network(cfg, bg, up, srv) && SameSaved(bg, bg')
    requires forall c: nat, v :: c < |cfg.threads| && cfg.HasServer(v) ==>
               SentUpTo(BgOf(bg', c, v.chan), v) == SentUpTo(BgOf(bg, c, v.chan), v)
    ensures Network(cfg, bg', up, srv)
  {
    hide UpOk, SentUpTo;
    forall c: nat, v | c < |cfg.threads| && cfg.HasServer(v)
      ensures Link(cfg, c, v, BgOf(bg', c, v.chan), SrvOf(cfg, srv, v), Queue(up, c, v))
    {
      assert Link(cfg, c, v, BgOf(bg, c, v.chan), SrvOf(cfg, srv, v), Queue(up, c, v));
    }
  }

  lemma PcSentUpTo(cfg: Config, bg: map<(nat, nat), Bg>, c: nat, p: nat, pc: BgPc)
    requires !BgOf(bg, c, p).pc.Sending? || BgOf(bg, c, p).pc.next == |cfg.threads|
    requires !pc.Sending?
    ensures var bg' := bg[(c, p) := BgOf(bg, c, p).(pc := pc)];
      forall d: nat, v :: d < |cfg.threads| && cfg.HasServer(v) ==>
        SentUpTo(BgOf(bg', d, v.chan), v) == SentUpTo(BgOf(bg, d, v.chan), v)
  {
    BgSet(bg, c, p, BgOf(bg, c, p).(pc := pc));
  }

  /** A change of program counter outside the sending phase keeps everything that only looks at the batches. */
  lemma PcCaches(cfg: Config, s: State, c: nat, p: nat, pc: BgPc)
    requires Caches(cfg, s)
    ensures Caches(cfg, s.(bg := s.bg[(c, p) := BgOf(s.bg, c, p).(pc := pc)]))
  {
    hide Copies, PRows, Downstream, ServerKeys, Coherent, RowsFresh, SysClocks, ThreadRows, SameSaved;
    var bg' := s.bg[(c, p) := BgOf(s.bg, c, p).(pc := pc)];
    PcSaved(s.bg, c, p, pc);
    SameCopies(cfg, s.log, s.place, s.bg, bg', s.down);
    SamePRows(cfg, s.log, s.place, s.bg, bg', s.pRow);
  }

  lemma PcCells(cfg: Config, s: State, c: nat, p: nat, pc: BgPc)
    requires Values(cfg, s) && (pc.Drain? ==> AllOk(s.log, pc.got))
    ensures Values(cfg, s.(bg := s.bg[(c, p) := BgOf(s.bg, c, p).(pc := pc)]))
  {
    hide AllOk, ServerCells;
    var b := BgOf(s.bg, c, p).(pc := pc);
    BgSet(s.bg, c, p, b);
    forall d: nat, q: nat | cfg.HasBg(d, q) ensures BgCells(s.log, BgOf(s.bg[(c, p) := b], d, q)) {
      assert BgCells(s.log, BgOf(s.bg, d, q));
    }
  }

  lemma PcBgs(cfg: Config, posted: map<(nat, nat), nat>, bg: map<(nat, nat), Bg>, c: nat, p: nat, b: Bg)
    requires Bgs(cfg, posted, bg) && BgFine(cfg, Posted(posted, c, p), b, p)
    ensures Bgs(cfg, posted, bg[(c, p) := b])
  {
    hide BgFine;
    BgSet(bg, c, p, b);
  }

  /** Nothing is gathered by a worker that is not draining. */
  lemma PcGathered(cfg: Config, log: seq<Upd>, place: seq<Place>, bg: map<(nat, nat), Bg>, c: nat, p: nat, b: Bg)
    requires |place| == |log| && Gathered(cfg, log, place, bg)
    requires BgOf(bg, c, p).pc.Drain? ==> b.pc.Drain? && b.pc.got == BgOf(bg, c, p).pc.got
    requires !BgOf(bg, c, p).pc.Drain? && b.pc.Drain? ==> b.pc.got == map[]
    ensures Gathered(cfg, log, place, bg[(c, p) := b])
  {
    var bg' := bg[(c, p) := b];
    BgSet(bg, c, p, b);
    forall i | 0 <= i < |place| && place[i] == InBg
      ensures var b := BgFor(cfg, bg', log[i]); b.pc.Drain? && log[i].key in b.pc.got && i in b.pc.got[log[i].key].ids
    {
      assert BgFor(cfg, bg, log[i]).pc.Drain?;
    }
    forall d: nat, q: nat, k, i: nat | cfg.HasBg(d, q) && BgOf(bg', d, q).pc.Drain?
                                       && k in BgOf(bg', d, q).pc.got && i in BgOf(bg', d, q).pc.got[k].ids
      ensures i < |place| && place[i] == InBg && log[i].thread.client == d && log[i].key == k && Chan(cfg, k) == q
    {
      assert i in BgOf(bg, d, q).pc.got[k].ids;
    }
  }

  lemma BgWhere(cfg: Config, s: State, c: nat, p: nat, pc: BgPc)
    requires Where(cfg, s)
    requires var was := BgOf(s.bg, c, p).pc;
      && (was.Drain? ==> pc.Drain? && pc.got == was.got)
      && (!was.Drain? && pc.Drain? ==> pc.got == map[])
    ensures Where(cfg, s.(bg := s.bg[(c, p) := BgOf(s.bg, c, p).(pc := pc)]))
  {
    hide ThreadOplogs, TableOplogs, Cancelled, Gathered, Batches, ServerRows, SameSaved;
    var b := BgOf(s.bg, c, p).(pc := pc);
    PcSaved(s.bg, c, p, pc);
    SameBatches(cfg, s.log, s.place, s.bg, s.bg[(c, p) := b]);
    PcGathered(cfg, s.log, s.place, s.bg, c, p, b);
  }

  // ---- BgStart ----

  lemma StartKeeps(cfg: Config, s: State, c: nat, p: nat, isClock: bool)
    requires Inv(cfg, s) && MayStart(cfg, s, c, p, isClock)
    ensures Inv(cfg, DoStart(s, c, p, isClock))
  {
    var pc := Drain(isClock, 0, {}, map[]);
    BgWhere(cfg, s, c, p, pc);
    PcCaches(cfg, s, c, p, pc);
    PcCells(cfg, s, c, p, pc);
    StartTiming(cfg, s, c, p, isClock);
    hide Where, Timing, Caches, Values;
  }

  lemma StartTiming(cfg: Config, s: State, c: nat, p: nat, isClock: bool)
    requires Timing(cfg, s) && MayStart(cfg, s, c, p, isClock)
    ensures Timing(cfg, DoStart(s, c, p, isClock))
  {
    hide Clocks, Bgs, Flushes, Coverage, InTime, Network, SameSaved, SentUpTo;
    var pc := Drain(isClock, 0, {}, map[]);
    var b := BgOf(s.bg, c, p).(pc := pc);
    PcSaved(s.bg, c, p, pc);
    PcSentUpTo(cfg, s.bg, c, p, pc);
    SameNetwork(cfg, s.bg, s.bg[(c, p) := b], s.up, s.srv);
    StartBgs(cfg, s.posted, s.bg, c, p, isClock);
    StartCoverage(cfg, s, c, p, b);
    StartInTime(cfg, s.log, s.place, s.bg, c, p, b);
  }

  lemma StartBgs(cfg: Config, posted: map<(nat, nat), nat>, bg: map<(nat, nat), Bg>, c: nat, p: nat, isClock: bool)
    requires Bgs(cfg, posted, bg) && cfg.HasBg(c, p) && BgOf(bg, c, p).hist != []
    requires isClock ==> BgOf(bg, c, p).hist[|BgOf(bg, c, p).hist| - 1] < Posted(posted, c, p)
    ensures Bgs(cfg, posted, bg[(c, p) := BgOf(bg, c, p).(pc := Drain(isClock, 0, {}, map[]))])
  {
    assert BgFine(cfg, Posted(posted, c, p), BgOf(bg, c, p), p);
    PcBgs(cfg, posted, bg, c, p, BgOf(bg, c, p).(pc := Drain(isClock, 0, {}, map[])));
  }

  lemma StartCoverage(cfg: Config, s: State, c: nat, p: nat, b: Bg)
    requires |s.place| == |s.log| && BgOf(s.bg, c, p).pc == Idle
    requires Coverage(cfg, s.log, s.place, s.ticks, s.tIndex, s.sIndex, s.bg)
    ensures Coverage(cfg, s.log, s.place, s.ticks, s.tIndex, s.sIndex, s.bg[(c, p) := b])
  {
    BgSet(s.bg, c, p, b);
    forall i | 0 <= i < |s.place| && s.place[i] == InTable
      ensures Covered(cfg, s.log[i], s.ticks, s.tIndex, s.sIndex, s.bg[(c, p) := b])
    {
      assert Covered(cfg, s.log[i], s.ticks, s.tIndex, s.sIndex, s.bg);
    }
  }

  lemma StartInTime(cfg: Config, log: seq<Upd>, place: seq<Place>, bg: map<(nat, nat), Bg>, c: nat, p: nat, b: Bg)
    requires |place| == |log| && InTime(cfg, log, place, bg)
    requires b.hist == BgOf(bg, c, p).hist && (b.pc.Drain? ==> b.pc.table == 0)
    ensures InTime(cfg, log, place, bg[(c, p) := b])
  {
    BgSet(bg, c, p, b);
    forall i | 0 <= i < |place|
      ensures var b' := BgFor(cfg, bg[(c, p) := b], log[i]); b'.hist != [] && InTimeAt(place[i], log[i], b')
    {
      assert InTimeAt(place[i], log[i], BgFor(cfg, bg, log[i]));
    }
  }

  // ---- BgTake ----

  lemma TakeKeeps(cfg: Config, s: State, c: nat, p: nat)
    requires Inv(cfg, s) && MayTake(cfg, s, c, p)
    ensures Inv(cfg, DoTake(cfg, s, c, p))
  {
    var was := BgOf(s.bg, c, p).pc;
    var pc := DoTake(cfg, s, c, p).bg[(c, p)].pc;
    BgWhere(cfg, s, c, p, pc);
    PcCaches(cfg, s, c, p, pc);
    TakeCells(cfg, s, c, p, pc);
    TakeTiming(cfg, s, c, p);
    hide Timing;
    TakeRest(cfg, s, DoTake(cfg, s, c, p));
    hide Where, Caches, Values;
  }

  /** The shared index only matters for timing. */
  lemma TakeRest(cfg: Config, s: State, s': State)
    requires var t := s.(bg := s'.bg); Where(cfg, t) && Caches(cfg, t) && Values(cfg, t)
    requires s' == s.(bg := s'.bg, sIndex := s'.sIndex)
    ensures Where(cfg, s') && Caches(cfg, s') && Values(cfg, s')
  {
    hide LogOk, ThreadOplogs, TableOplogs, Cancelled, Gathered, Batches, ServerRows, Copies, PRows, Downstream,
         ServerKeys, Coherent,
         RowsFresh, SysClocks, ThreadRows, CellsOk, ServerCells;
  }

  lemma TakeCells(cfg: Config, s: State, c: nat, p: nat, pc: BgPc)
    requires Values(cfg, s) && cfg.HasBg(c, p)
    requires BgOf(s.bg, c, p).pc.Drain? && pc.Drain? && pc.got == BgOf(s.bg, c, p).pc.got
    ensures Values(cfg, s.(bg := s.bg[(c, p) := BgOf(s.bg, c, p).(pc := pc)]))
  {
    hide AllOk, ServerCells;
    assert BgCells(s.log, BgOf(s.bg, c, p));
    PcCells(cfg, s, c, p, pc);
  }

  lemma TakeTiming(cfg: Config, s: State, c: nat, p: nat)
    requires Timing(cfg, s) && LogOk(cfg, s.log, s.place) && MayTake(cfg, s, c, p)
    ensures Timing(cfg, DoTake(cfg, s, c, p))
  {
    hide Clocks, Bgs, Flushes, Coverage, InTime, Network, SameSaved, SentUpTo, LogOk;
    var s' := DoTake(cfg, s, c, p);
    var b := s'.bg[(c, p)];
    PcSaved(s.bg, c, p, b.pc);
    PcSentUpTo(cfg, s.bg, c, p, b.pc);
    SameNetwork(cfg, s.bg, s'.bg, s.up, s.srv);
    TakeBgs(cfg, s, c, p);
    TakeCoverage(cfg, s, c, p);
    TakeInTime(cfg, s, c, p);
  }

  lemma TakeBgs(cfg: Config, s: State, c: nat, p: nat)
    requires Bgs(cfg, s.posted, s.bg) && MayTake(cfg, s, c, p)
    ensures Bgs(cfg, s.posted, DoTake(cfg, s, c, p).bg)
  {
    assert BgFine(cfg, Posted(s.posted, c, p), BgOf(s.bg, c, p), p);
    var b := DoTake(cfg, s, c, p).bg[(c, p)];
    PcBgs(cfg, s.posted, s.bg, c, p, b);
  }

  lemma TakeCoverage(cfg: Config, s: State, c: nat, p: nat)
    requires |s.place| == |s.log| && MayTake(cfg, s, c, p)
    requires Coverage(cfg, s.log, s.place, s.ticks, s.tIndex, s.sIndex, s.bg)
    ensures var s' := DoTake(cfg, s, c, p);
      Coverage(cfg, s.log, s.place, s.ticks, s.tIndex, s'.sIndex, s'.bg)
  {
    var s' := DoTake(cfg, s, c, p);
    BgSet(s.bg, c, p, s'.bg[(c, p)]);
    IndexSet(s.sIndex, c, s'.sIndex[c]);
    forall i | 0 <= i < |s.place| && s.place[i] == InTable
      ensures Covered(cfg, s.log[i], s.ticks, s.tIndex, s'.sIndex, s'.bg)
    {
      assert Covered(cfg, s.log[i], s.ticks, s.tIndex, s.sIndex, s.bg);
    }
  }

  /** What is in the table oplog but not in what was taken was written after the clock that is being sent. */
  lemma TakeInTime(cfg: Config, s: State, c: nat, p: nat)
    requires LogOk(cfg, s.log, s.place) && MayTake(cfg, s, c, p)
    requires Clocks(cfg, s.clock, s.pc, s.ticks, s.posted) && Bgs(cfg, s.posted, s.bg)
    requires Coverage(cfg, s.log, s.place, s.ticks, s.tIndex, s.sIndex, s.bg)
    requires InTime(cfg, s.log, s.place, s.bg)
    ensures InTime(cfg, s.log, s.place, DoTake(cfg, s, c, p).bg)
  {
    var s' := DoTake(cfg, s, c, p);
    assert BgFine(cfg, Posted(s.posted, c, p), BgOf(s.bg, c, p), p);
    BgSet(s.bg, c, p, s'.bg[(c, p)]);
    hide Bgs;
    forall i | 0 <= i < |s.place|
      ensures BgFor(cfg, s'.bg, s.log[i]).hist != [] && InTimeAt(s.place[i], s.log[i], BgFor(cfg, s'.bg, s.log[i]))
    {
      var u := s.log[i];
      assert InTimeAt(s.place[i], u, BgFor(cfg, s.bg, u));
      if s.place[i] == InTable {
        assert Covered(cfg, u, s.ticks, s.tIndex, s.sIndex, s.bg);
        assert cfg.HasThread(u.thread);
        assert PostedBy(cfg, s.ticks, s.posted, u.thread);
      }
    }
  }

  // ---- BgErase ----

  lemma EraseKeeps(cfg: Config, s: State, c: nat, p: nat, key: Key)
    requires Inv(cfg, s) && MayErase(cfg, s, c, p, key)
    ensures Inv(cfg, DoErase(s, c, p, key))
  {
    EraseWhere(cfg, s, c, p, key);
    EraseTiming(cfg, s, c, p, key);
    EraseCaches(cfg, s, c, p, key);
    EraseValues(cfg, s, c, p, key);
    hide Where, Timing, Caches, Values;
  }

  ghost predicate Erased(log: seq<Upd>, place: seq<Place>, place': seq<Place>, c: nat, key: Key)
    requires |place'| == |place| == |log|
  {
    forall i {:trigger place[i]} {:trigger place'[i]} :: 0 <= i < |place| ==>
      if place[i] == InTable && log[i].thread.client == c && log[i].key == key then place'[i] == InBg
      else place'[i] == place[i]
  }

  lemma ErasePlaces(log: seq<Upd>, place: seq<Place>, pOplog: map<(nat, Key), Cell>, c: nat, key: Key)
    requires |place| == |log| && TableOplogs(log, place, pOplog)
    ensures |Move(place, Oplog(pOplog, (c, key)).ids, InBg)| == |place|
    ensures Erased(log, place, Move(place, Oplog(pOplog, (c, key)).ids, InBg), c, key)
  {
    var ids := Oplog(pOplog, (c, key)).ids;
    forall i | 0 <= i < |place|
      ensures i in ids <==> place[i] == InTable && log[i].thread.client == c && log[i].key == key
    {
    }
  }

  /** The worker's state once it has dealt with a row. */
  ghost predicate Dealt(b: Bg, b': Bg, key: Key) {
    && b.pc.Drain? && b'.pc.Drain?
    && b' == b.(pc := b.pc.(taken := b.pc.taken - {key}, got := b'.pc.got))
    && b'.pc.got.Keys <= b.pc.got.Keys + {key}
  }

  lemma ErasedSame(log: seq<Upd>, place: seq<Place>, place': seq<Place>, c: nat, key: Key)
    requires |place'| == |place| == |log| && Erased(log, place, place', c, key)
    ensures SameThreadPlaces(place, place') && SameSentPlaces(place, place')
    ensures SameGonePlaces(place, place') && StillGone(place, place')
    ensures forall i :: 0 <= i < |place| ==> Left(place'[i]) == Left(place[i])
  {
  }

  lemma EraseWhere(cfg: Config, s: State, c: nat, p: nat, key: Key)
    requires Where(cfg, s) && MayErase(cfg, s, c, p, key)
    requires Bgs(cfg, s.posted, s.bg)
    ensures Where(cfg, DoErase(s, c, p, key))
  {
    hide ThreadOplogs, TableOplogs, Cancelled, Gathered, Batches, ServerRows, Bgs, Erased, SameSaved, Erase,
         SameThreadPlaces, SameSentPlaces, SameGonePlaces, StillGone;
    var place' := Move(s.place, Oplog(s.pOplog, (c, key)).ids, InBg);
    var b := Erase(BgOf(s.bg, c, p), s.pOplog, c, key);
    ErasePlaces(s.log, s.place, s.pOplog, c, key);
    ErasedSame(s.log, s.place, place', c, key);
    MoveThreadOplogs(s.log, s.place, place', s.tOplog);
    MoveCancelled(s.log, s.place, place', s.gone);
    MoveServerRows(cfg, s.log, s.place, place', s.srv);
    MoveBatches(cfg, s.log, s.place, place', s.bg);
    EraseSaved(s.bg, s.pOplog, c, p, key);
    SameBatches(cfg, s.log, place', s.bg, s.bg[(c, p) := b]);
    EraseTable(s.log, s.place, place', s.pOplog, c, key);
    EraseGathered(cfg, s, place', c, p, key);
  }

  lemma EraseSaved(bg: map<(nat, nat), Bg>, pOplog: map<(nat, Key), Cell>, c: nat, p: nat, key: Key)
    requires BgOf(bg, c, p).pc.Drain?
    ensures SameSaved(bg, bg[(c, p) := Erase(BgOf(bg, c, p), pOplog, c, key)])
    ensures Dealt(BgOf(bg, c, p), Erase(BgOf(bg, c, p), pOplog, c, key), key)
  {
  }

  lemma EraseTable(log: seq<Upd>, place: seq<Place>, place': seq<Place>, pOplog: map<(nat, Key), Cell>, c: nat,
                   key: Key)
    requires |place'| == |place| == |log| && Erased(log, place, place', c, key) && TableOplogs(log, place, pOplog)
    ensures TableOplogs(log, place', pOplog - {(c, key)})
  {
  }

  lemma EraseGathered(cfg: Config, s: State, place': seq<Place>, c: nat, p: nat, key: Key)
    requires |place'| == |s.place| == |s.log| && Erased(s.log, s.place, place', c, key)
    requires TableOplogs(s.log, s.place, s.pOplog) && Gathered(cfg, s.log, s.place, s.bg)
    requires Bgs(cfg, s.posted, s.bg) && MayErase(cfg, s, c, p, key)
    ensures Gathered(cfg, s.log, place', s.bg[(c, p) := Erase(BgOf(s.bg, c, p), s.pOplog, c, key)])
  {
    assert BgFine(cfg, Posted(s.posted, c, p), BgOf(s.bg, c, p), p);
    EraseGot(cfg, s.log, s.place, place', s.pOplog, s.bg, c, p, key);
  }

  lemma EraseGot(cfg: Config, log: seq<Upd>, place: seq<Place>, place': seq<Place>, pOplog: map<(nat, Key), Cell>,
                 bg: map<(nat, nat), Bg>, c: nat, p: nat, key: Key)
    requires |place'| == |place| == |log| && Erased(log, place, place', c, key)
    requires TableOplogs(log, place, pOplog) && Gathered(cfg, log, place, bg)
    requires BgOf(bg, c, p).pc.Drain? && key !in BgOf(bg, c, p).pc.got && Chan(cfg, key) == p
    ensures Gathered(cfg, log, place', bg[(c, p) := Erase(BgOf(bg, c, p), pOplog, c, key)])
  {
    var b := Erase(BgOf(bg, c, p), pOplog, c, key);
    var bg' := bg[(c, p) := b];
    BgSet(bg, c, p, b);
    forall i | 0 <= i < |place'| && place'[i] == InBg
      ensures var b := BgFor(cfg, bg', log[i]); b.pc.Drain? && log[i].key in b.pc.got && i in b.pc.got[log[i].key].ids
    {
      if place[i] == InBg {
        assert BgFor(cfg, bg, log[i]).pc.Drain?;
      }
    }
    forall d: nat, q: nat, k, i: nat | cfg.HasBg(d, q) && BgOf(bg', d, q).pc.Drain?
                                       && k in BgOf(bg', d, q).pc.got && i in BgOf(bg', d, q).pc.got[k].ids
      ensures i < |place'| && place'[i] == InBg
      ensures log[i].thread.client == d && log[i].key == k && Chan(cfg, k) == q
    {
      if (d, q, k) == (c, p, key) {
        assert i in pOplog[(c, key)].ids;
      } else {
        assert i in BgOf(bg, d, q).pc.got[k].ids;
      }
      assert i < |place|;
    }
  }

  lemma EraseTiming(cfg: Config, s: State, c: nat, p: nat, key: Key)
    requires Where(cfg, s) && Timing(cfg, s) && MayErase(cfg, s, c, p, key)
    ensures Timing(cfg, DoErase(s, c, p, key))
  {
    hide ThreadOplogs, TableOplogs, Cancelled, Gathered, Batches, ServerRows, LogOk,
         Clocks, Bgs, Flushes, Coverage, InTime, Network, SameSaved, SentUpTo, Erased, Dealt, Erase;
    assert |s.place| == |s.log|;
    var place' := Move(s.place, Oplog(s.pOplog, (c, key)).ids, InBg);
    ErasePlaces(s.log, s.place, s.pOplog, c, key);
    EraseSaved(s.bg, s.pOplog, c, p, key);
    var b := Erase(BgOf(s.bg, c, p), s.pOplog, c, key);
    EraseNetwork(cfg, s.bg, s.up, s.srv, c, p, key, b);
    EraseBgs(cfg, s.posted, s.bg, c, p, key, b);
    EraseCoverage(cfg, s, place', c, p, key, b);
    EraseInTime(cfg, s.log, s.place, place', s.bg, c, p, key, b);
  }

  lemma EraseNetwork(cfg: Config, bg: map<(nat, nat), Bg>, up: map<(nat, Srv), seq<Up>>, srv: map<Srv, Server>,
                     c: nat, p: nat, key: Key, b: Bg)
    requires Network(cfg, bg, up, srv) && Dealt(BgOf(bg, c, p), b, key)
    ensures Network(cfg, bg[(c, p) := b], up, srv)
  {
    PcSaved(bg, c, p, b.pc);
    PcSentUpTo(cfg, bg, c, p, b.pc);
    hide SameSaved, SentUpTo, Network;
    SameNetwork(cfg, bg, bg[(c, p) := b], up, srv);
  }

  lemma EraseBgs(cfg: Config, posted: map<(nat, nat), nat>, bg: map<(nat, nat), Bg>, c: nat, p: nat, key: Key, b: Bg)
    requires Bgs(cfg, posted, bg) && cfg.HasBg(c, p) && Dealt(BgOf(bg, c, p), b, key)
    requires key in BgOf(bg, c, p).pc.taken
    ensures Bgs(cfg, posted, bg[(c, p) := b])
  {
    assert BgFine(cfg, Posted(posted, c, p), BgOf(bg, c, p), p);
    assert BgFine(cfg, Posted(posted, c, p), b, p);
    hide BgFine;
    PcBgs(cfg, posted, bg, c, p, b);
  }

  lemma EraseCoverage(cfg: Config, s: State, place': seq<Place>, c: nat, p: nat, key: Key, b: Bg)
    requires |place'| == |s.place| == |s.log| && Dealt(BgOf(s.bg, c, p), b, key)
    requires Erased(s.log, s.place, place', c, key)
    requires Coverage(cfg, s.log, s.place, s.ticks, s.tIndex, s.sIndex, s.bg)
    ensures Coverage(cfg, s.log, place', s.ticks, s.tIndex, s.sIndex, s.bg[(c, p) := b])
  {
    BgSet(s.bg, c, p, b);
    forall i | 0 <= i < |place'| && place'[i] == InTable
      ensures Covered(cfg, s.log[i], s.ticks, s.tIndex, s.sIndex, s.bg[(c, p) := b])
    {
      assert Covered(cfg, s.log[i], s.ticks, s.tIndex, s.sIndex, s.bg);
    }
  }

  lemma EraseInTime(cfg: Config, log: seq<Upd>, place: seq<Place>, place': seq<Place>, bg: map<(nat, nat), Bg>,
                    c: nat, p: nat, key: Key, b: Bg)
    requires |place'| == |place| == |log| && Dealt(BgOf(bg, c, p), b, key)
    requires Erased(log, place, place', c, key) && InTime(cfg, log, place, bg)
    ensures InTime(cfg, log, place', bg[(c, p) := b])
  {
    var bg' := bg[(c, p) := b];
    BgSet(bg, c, p, b);
    forall i | 0 <= i < |place|
      ensures BgFor(cfg, bg', log[i]).hist != [] && InTimeAt(place'[i], log[i], BgFor(cfg, bg', log[i]))
    {
      assert InTimeAt(place[i], log[i], BgFor(cfg, bg, log[i]));
    }
  }

  lemma EraseCaches(cfg: Config, s: State, c: nat, p: nat, key: Key)
    requires Where(cfg, s) && Caches(cfg, s) && MayErase(cfg, s, c, p, key)
    ensures Caches(cfg, DoErase(s, c, p, key))
  {
    hide ThreadOplogs, TableOplogs, Cancelled, Gathered, Batches, ServerRows, LogOk, Erased, SameSaved, Erase, Dealt,
         SameThreadPlaces, SameSentPlaces, SameGonePlaces, StillGone,
         Copies, PRows, Downstream, ServerKeys, Coherent, RowsFresh, SysClocks, ThreadRows;
    var place' := Move(s.place, Oplog(s.pOplog, (c, key)).ids, InBg);
    var bg' := s.bg[(c, p) := Erase(BgOf(s.bg, c, p), s.pOplog, c, key)];
    ErasePlaces(s.log, s.place, s.pOplog, c, key);
    ErasedSame(s.log, s.place, place', c, key);
    EraseSaved(s.bg, s.pOplog, c, p, key);
    MoveCopies(cfg, s.log, s.place, place', s.bg, s.down);
    SameCopies(cfg, s.log, place', s.bg, bg', s.down);
    MovePRows(cfg, s.log, s.place, place', s.bg, s.pRow);
    SamePRows(cfg, s.log, place', s.bg, bg', s.pRow);
    MoveDownstream(cfg, s.log, s.place, place', s.pRow, s.seen, s.down, s.srv);
    MoveRowsFresh(cfg, s.log, s.place, place', s.pRow, s.seen, s.pushClock);
    MoveThreadRows(cfg, s.log, s.place, place', s.clock, s.pc, s.ticks, s.tOplog, s.tCache);
  }

  lemma EraseValues(cfg: Config, s: State, c: nat, p: nat, key: Key)
    requires Values(cfg, s) && MayErase(cfg, s, c, p, key)
    ensures Values(cfg, DoErase(s, c, p, key))
  {
    hide CellOk, ServerCells, AllOk, Erase;
    var b := Erase(BgOf(s.bg, c, p), s.pOplog, c, key);
    assert BgCells(s.log, BgOf(s.bg, c, p));
    EraseCells(s.log, BgOf(s.bg, c, p), s.pOplog, c, key);
    AllOkFewer(s.log, s.pOplog, (c, key));
    BgSet(s.bg, c, p, b);
    forall d: nat, q: nat | cfg.HasBg(d, q) ensures BgCells(s.log, BgOf(s.bg[(c, p) := b], d, q)) {
      assert BgCells(s.log, BgOf(s.bg, d, q));
    }
  }

  lemma EraseCells(log: seq<Upd>, b: Bg, pOplog: map<(nat, Key), Cell>, c: nat, key: Key)
    requires BgCells(log, b) && b.pc.Drain? && AllOk(log, pOplog)
    ensures BgCells(log, Erase(b, pOplog, c, key))
  {
    if (c, key) in pOplog {
      AllOkSet(log, b.pc.got, key, pOplog[(c, key)]);
    }
    hide AllOk;
  }

  lemma AllOkFewer<K(!new)>(log: seq<Upd>, m: map<K, Cell>, k: K)
    requires AllOk(log, m)
    ensures AllOk(log, m - {k})
  {
    hide CellOk;
  }
}
