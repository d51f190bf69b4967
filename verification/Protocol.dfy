/** The stale-synchronous-parallel protocol as a step machine: any number of clients, application threads,
    communication channels and tables, with one background worker per client and channel and one server thread
    per client and channel. One step is what the source does while holding one lock or handling one message. */
module Protocol {
  import opened Rows
  import opened VectorClocks
  import opened ServerSpec

  /** A server thread: the host it runs on and its communication channel. */
  datatype Srv = Srv(host: nat, chan: nat)

  /** `threads[c]` is the number of application threads of client c. `push` is set under SSPPush, where the server
      pushes dirty rows to subscribers. `home` says which server thread stores a row. */
  datatype RawConfig = RawConfig(threads: seq<nat>, channels: nat, tables: nat, staleness: seq<nat>,
                                 push: bool, home: Key -> Srv)
  {
    ghost predicate Valid() {
      && threads != [] && channels > 0 && |staleness| == tables
      && (forall c :: 0 <= c < |threads| ==> threads[c] > 0)
      && (forall k :: HasServer(home(k)))
    }

    predicate HasThread(t: Thread) {
      t.client < |threads| && t.idx < threads[t.client]
    }

    predicate HasServer(v: Srv) {
      v.host < |threads| && v.chan < channels
    }

    predicate HasBg(c: nat, p: nat) {
      c < |threads| && p < channels
    }
  }

  type Config = cfg: RawConfig | cfg.Valid() witness RawConfig([1], 1, 0, [], false, _ => Srv(0, 0))

  /** The server thread that stores a row. */
  function Home(cfg: Config, key: Key): Srv {
    cfg.home(key)
  }

  /** The communication channel a row belongs to. */
  function Chan(cfg: Config, key: Key): nat {
    cfg.home(key).chan
  }

  /** The partition the source uses: rows go round-robin to channels, and then round-robin to clients. */
  function Partition(clients: nat, channels: nat): Key -> Srv
    requires clients > 0 && channels > 0
  {
    (key: Key) => Srv((key.row / channels) % clients, key.row % channels)
  }

  lemma PartitionValid(threads: seq<nat>, channels: nat, staleness: seq<nat>, push: bool)
    requires threads != [] && channels > 0 && (forall c :: 0 <= c < |threads| ==> threads[c] > 0)
    ensures RawConfig(threads, channels, |staleness|, staleness, push, Partition(|threads|, channels)).Valid()
  {
    forall key: Key ensures Partition(|threads|, channels)(key).host < |threads| {
      assert 0 <= key.row / channels;
    }
  }

  /** Where an update is now. `Sent(k)` is batch number k of its client's background worker.
      `Gone` is for updates that cancelled out in a thread oplog, so that there was nothing to move on. */
  datatype Place = InThread | InTable | InBg | Sent(batch: nat) | Gone

  /** Where a thread is in TableGroup.Clock; Running when it is not in it. */
  datatype Pc = Running | FlushCache(table: nat) | FlushIndex(table: nat, chan: nat) | Ticking | Posting(chan: nat)

  datatype BgPc =
    | Idle
    | Drain(isClock: bool, table: nat, taken: set<Key>, got: map<Key, Cell>)
    | Sending(isClock: bool, next: nat)

  /** `saved[k]` is batch k; `hist[k]` is the number of clock messages among the batches before k. */
  datatype Bg = Bg(saved: seq<map<Key, Cell>>, hist: seq<nat>, pc: BgPc)

  datatype Up =
    | Ask(key: Key, clock: int)
    | Batch(version: nat, isClock: bool, bgClock: int, rows: map<Key, Cell>)

  /** A row of the process cache: the copy `base` it came from, which had `ver` of the client's own batches. */
  datatype PRow = PRow(clock: int, cell: Cell, base: set<nat>, ver: nat)

  datatype State = State(
    log: seq<Upd>,
    place: seq<Place>,
    clock: map<Thread, nat>,
    pc: map<Thread, Pc>,
    ticks: map<Thread, nat>,
    posted: map<(nat, nat), nat>,
    tOplog: map<(Thread, Key), Cell>,
    tIndex: map<Thread, set<Key>>,
    tCache: map<(Thread, Key), Cell>,
    gone: map<Key, Cell>,
    pOplog: map<(nat, Key), Cell>,
    sIndex: map<nat, set<Key>>,
    pRow: map<(nat, Key), PRow>,
    bg: map<(nat, nat), Bg>,
    up: map<(nat, Srv), seq<Up>>,
    down: map<(nat, Srv), seq<Down>>,
    srv: map<Srv, Server>,
    seen: map<(nat, Srv), int>,
    pushClock: map<(nat, Srv), int>,
    sysClock: map<nat, int>)

  function Clock(m: map<Thread, nat>, t: Thread): nat { if t in m then m[t] else 0 }

  function PcOf(pc: map<Thread, Pc>, t: Thread): Pc { if t in pc then pc[t] else Running }

  function Posted(m: map<(nat, nat), nat>, c: nat, p: nat): nat { if (c, p) in m then m[(c, p)] else 0 }

  function Oplog<K>(m: map<K, Cell>, k: K): Cell { if k in m then m[k] else ZERO }

  function Index<K>(m: map<K, set<Key>>, k: K): set<Key> { if k in m then m[k] else {} }

  function BgOf(bg: map<(nat, nat), Bg>, c: nat, p: nat): Bg {
    if (c, p) in bg then bg[(c, p)] else Bg([], [0], Idle)
  }

  function Queue<M>(m: map<(nat, Srv), seq<M>>, c: nat, v: Srv): seq<M> {
    if (c, v) in m then m[(c, v)] else []
  }

  /** Clients 0 to n - 1, all at clock zero. */
  function Zeros(n: nat): (m: map<int, int>)
    ensures forall c :: c in m <==> 0 <= c < n
    ensures forall c :: c in m ==> m[c] == 0
  {
    if n == 0 then map[] else Zeros(n - 1)[n - 1 := 0]
  }

  function NoServer(cfg: Config): Server {
    Server(VC(Zeros(|cfg.threads|), 0), map[], map[], {}, {}, map[])
  }

  function SrvOf(cfg: Config, srv: map<Srv, Server>, v: Srv): Server {
    if v in srv then srv[v] else NoServer(cfg)
  }

  function ClockAt(m: map<(nat, Srv), int>, c: nat, v: Srv): int {
    if (c, v) in m then m[(c, v)] else 0
  }

  function SysClockOf(m: map<nat, int>, c: nat): int { if c in m then m[c] else 0 }

  // What an update does to a lookup.

  lemma ClockSet(m: map<Thread, nat>, t: Thread, n: nat)
    ensures forall o :: Clock(m[t := n], o) == if o == t then n else Clock(m, o)
  {
    forall o ensures Clock(m[t := n], o) == if o == t then n else Clock(m, o) {
    }
  }

  lemma PcSet(pc: map<Thread, Pc>, t: Thread, p: Pc)
    ensures forall o :: PcOf(pc[t := p], o) == if o == t then p else PcOf(pc, o)
  {
    forall o ensures PcOf(pc[t := p], o) == if o == t then p else PcOf(pc, o) {
    }
  }

  lemma PostedSet(m: map<(nat, nat), nat>, c: nat, p: nat, n: nat)
    ensures forall d: nat, q: nat :: Posted(m[(c, p) := n], d, q) == if (d, q) == (c, p) then n else Posted(m, d, q)
  {
    forall d: nat, q: nat ensures Posted(m[(c, p) := n], d, q) == if (d, q) == (c, p) then n else Posted(m, d, q) {
    }
  }

  lemma IndexSet<K>(m: map<K, set<Key>>, k: K, keys: set<Key>)
    ensures forall j :: Index(m[k := keys], j) == if j == k then keys else Index(m, j)
  {
    forall j ensures Index(m[k := keys], j) == if j == k then keys else Index(m, j) {
    }
  }

  lemma BgSet(bg: map<(nat, nat), Bg>, c: nat, p: nat, b: Bg)
    ensures forall d: nat, q: nat :: BgOf(bg[(c, p) := b], d, q) == if (d, q) == (c, p) then b else BgOf(bg, d, q)
  {
    forall d: nat, q: nat ensures BgOf(bg[(c, p) := b], d, q) == if (d, q) == (c, p) then b else BgOf(bg, d, q) {
    }
  }

  lemma QueueSet<M>(m: map<(nat, Srv), seq<M>>, c: nat, v: Srv, q: seq<M>)
    ensures forall d: nat, u: Srv :: Queue(m[(c, v) := q], d, u) == if (d, u) == (c, v) then q else Queue(m, d, u)
  {
    forall d: nat, u: Srv ensures Queue(m[(c, v) := q], d, u) == if (d, u) == (c, v) then q else Queue(m, d, u) {
    }
  }

  lemma SrvSet(cfg: Config, srv: map<Srv, Server>, v: Srv, s: Server)
    ensures forall u :: SrvOf(cfg, srv[v := s], u) == if u == v then s else SrvOf(cfg, srv, u)
  {
    forall u ensures SrvOf(cfg, srv[v := s], u) == if u == v then s else SrvOf(cfg, srv, u) {
    }
  }

  const INIT := State([], [], map[], map[], map[], map[], map[], map[], map[], map[], map[], map[], map[],
                      map[], map[], map[], map[], map[], map[], map[])

  function Move(place: seq<Place>, ids: set<nat>, to: Place): seq<Place> {
    seq(|place|, i requires 0 <= i < |place| => if i in ids then to else place[i])
  }

  function MergeRow(pRow: map<(nat, Key), PRow>, c: nat, key: Key, cell: Cell): map<(nat, Key), PRow> {
    if (c, key) in pRow then pRow[(c, key) := pRow[(c, key)].(cell := Merge(pRow[(c, key)].cell, cell))] else pRow
  }

  /** The part of a batch that goes to one server. */
  function Restrict(cfg: Config, batch: map<Key, Cell>, v: Srv): map<Key, Cell> {
    map k | k in batch && Home(cfg, k) == v :: batch[k]
  }

  /** Old oplogs are applied again to a fresh copy that does not have them: batches from..upto. */
  function Replay(saved: seq<map<Key, Cell>>, key: Key, from: nat, upto: nat, cell: Cell): Cell
    requires upto <= |saved|
    decreases upto
  {
    if upto <= from then cell else Merge(Replay(saved, key, from, upto - 1, cell), Oplog(saved[upto - 1], key))
  }

  function Refreshed(saved: seq<map<Key, Cell>>, pOplog: map<(nat, Key), Cell>, c: nat, key: Key,
                     clock: int, ver: nat, copy: Cell): PRow
  {
    PRow(clock, Merge(Replay(saved, key, ver, |saved|, copy), Oplog(pOplog, (c, key))), copy.ids, ver)
  }

  datatype Step =
    | Inc(t: Thread, key: Key, delta: Row)
    | ThreadInc(t: Thread, key: Key, delta: Row)
    | FlushRow(t: Thread, key: Key, indexed: bool)
    | ClockBegin(t: Thread)
    | EndFlush(t: Thread)
    | AddIndex(t: Thread)
    | TickClock(t: Thread)
    | Post(t: Thread)
    | Fetch(t: Thread, key: Key)
    | Forget(t: Thread, table: nat)
    | BgStart(c: nat, p: nat, isClock: bool)
    | BgTake(c: nat, p: nat)
    | BgErase(c: nat, p: nat, key: Key)
    | BgPack(c: nat, p: nat)
    | BgSend(c: nat, p: nat)
    | BgFinish(c: nat, p: nat)
    | BgRequest(c: nat, key: Key, asked: int)
    | Serve(c: nat, v: Srv)
    | Deliver(c: nat, v: Srv)
    | SysTick(c: nat)
    | Evict(c: nat, key: Key)

  ghost predicate UniqueMin(cfg: Config, ticks: map<Thread, nat>, t: Thread) {
    forall o :: cfg.HasThread(o) && o.client == t.client && o != t ==> Clock(ticks, t) < Clock(ticks, o)
  }

  /** The oldest clock that a read by thread t of a row of `table` may return. */
  function Stalest(cfg: Config, s: State, t: Thread, table: nat): int
    requires table < cfg.tables
  {
    var d := Clock(s.clock, t) - cfg.staleness[table];
    if d > 0 then d else 0
  }

  /** The check a read makes on the process cache before it returns the row it finds there. */
  ghost predicate FreshEnough(cfg: Config, s: State, t: Thread, key: Key) {
    && key.table < cfg.tables
    && (t.client, key) in s.pRow
    && if cfg.push then Stalest(cfg, s, t, key.table) <= SysClockOf(s.sysClock, t.client)
       else Stalest(cfg, s, t, key.table) <= s.pRow[(t.client, key)].clock
  }

  function FirstTable(cfg: Config, table: nat): Pc {
    if table < cfg.tables then FlushCache(table) else Ticking
  }

  ghost predicate MayUpdate(cfg: Config, s: State, t: Thread, key: Key) {
    cfg.HasThread(t) && PcOf(s.pc, t) == Running && key.table < cfg.tables
  }

  ghost predicate MayFlush(cfg: Config, s: State, t: Thread, key: Key, indexed: bool) {
    && cfg.HasThread(t) && PcOf(s.pc, t) in {Running, FlushCache(key.table)} && (t, key) in s.tOplog
    && (indexed || forall col :: Val(s.tOplog[(t, key)].vals, col) == 0)
  }

  ghost predicate MayEndFlush(cfg: Config, s: State, t: Thread) {
    && cfg.HasThread(t) && PcOf(s.pc, t).FlushCache?
    && (forall w :: w in s.tOplog && w.0 == t ==> w.1.table != PcOf(s.pc, t).table)
  }

  ghost predicate MayFetch(cfg: Config, s: State, t: Thread, key: Key) {
    cfg.HasThread(t) && PcOf(s.pc, t) == Running && FreshEnough(cfg, s, t, key)
  }

  ghost predicate MayStart(cfg: Config, s: State, c: nat, p: nat, isClock: bool) {
    && cfg.HasBg(c, p) && BgOf(s.bg, c, p).pc == Idle
    && BgOf(s.bg, c, p).hist != []
    && (isClock ==> BgOf(s.bg, c, p).hist[|BgOf(s.bg, c, p).hist| - 1] < Posted(s.posted, c, p))
  }

  ghost predicate MayTake(cfg: Config, s: State, c: nat, p: nat) {
    && cfg.HasBg(c, p) && BgOf(s.bg, c, p).pc.Drain?
    && BgOf(s.bg, c, p).pc.taken == {} && BgOf(s.bg, c, p).pc.table < cfg.tables
  }

  ghost predicate MayErase(cfg: Config, s: State, c: nat, p: nat, key: Key) {
    cfg.HasBg(c, p) && BgOf(s.bg, c, p).pc.Drain? && key in BgOf(s.bg, c, p).pc.taken
  }

  ghost predicate MayPack(cfg: Config, s: State, c: nat, p: nat) {
    && cfg.HasBg(c, p) && BgOf(s.bg, c, p).pc.Drain? && BgOf(s.bg, c, p).hist != []
    && BgOf(s.bg, c, p).pc.taken == {} && BgOf(s.bg, c, p).pc.table == cfg.tables
    && |s.place| == |s.log|
  }

  ghost predicate MaySend(cfg: Config, s: State, c: nat, p: nat) {
    && cfg.HasBg(c, p) && BgOf(s.bg, c, p).pc.Sending? && BgOf(s.bg, c, p).pc.next < |cfg.threads|
    && 0 < |BgOf(s.bg, c, p).saved| <= |BgOf(s.bg, c, p).hist|
  }

  ghost predicate MayFinish(cfg: Config, s: State, c: nat, p: nat) {
    cfg.HasBg(c, p) && BgOf(s.bg, c, p).pc.Sending? && BgOf(s.bg, c, p).pc.next == |cfg.threads|
  }

  ghost predicate MayServe(cfg: Config, s: State, c: nat, v: Srv) {
    c < |cfg.threads| && cfg.HasServer(v) && Queue(s.up, c, v) != []
  }

  ghost predicate MayDeliver(cfg: Config, s: State, c: nat, v: Srv) {
    && c < |cfg.threads| && cfg.HasServer(v) && Queue(s.down, c, v) != []
    && BgOf(s.bg, c, v.chan).pc == Idle
  }

  ghost predicate MaySysTick(cfg: Config, s: State, c: nat) {
    && cfg.push && c < |cfg.threads|
    && (forall v :: cfg.HasServer(v) ==> SysClockOf(s.sysClock, c) < ClockAt(s.pushClock, c, v))
  }

  ghost predicate Can(cfg: Config, s: State, step: Step) {
    match step
    case Inc(t, key, _) => MayUpdate(cfg, s, t, key)
    case ThreadInc(t, key, _) => MayUpdate(cfg, s, t, key)
    case FlushRow(t, key, indexed) => MayFlush(cfg, s, t, key, indexed)
    case ClockBegin(t) => cfg.HasThread(t) && PcOf(s.pc, t) == Running
    case EndFlush(t) => MayEndFlush(cfg, s, t)
    case AddIndex(t) => cfg.HasThread(t) && PcOf(s.pc, t).FlushIndex?
    case TickClock(t) => cfg.HasThread(t) && PcOf(s.pc, t) == Ticking
    case Post(t) => cfg.HasThread(t) && PcOf(s.pc, t).Posting?
    case Fetch(t, key) => MayFetch(cfg, s, t, key)
    case Forget(t, table) => cfg.HasThread(t) && PcOf(s.pc, t) == Running
    case BgStart(c, p, isClock) => MayStart(cfg, s, c, p, isClock)
    case BgTake(c, p) => MayTake(cfg, s, c, p)
    case BgErase(c, p, key) => MayErase(cfg, s, c, p, key)
    case BgPack(c, p) => MayPack(cfg, s, c, p)
    case BgSend(c, p) => MaySend(cfg, s, c, p)
    case BgFinish(c, p) => MayFinish(cfg, s, c, p)
    case BgRequest(c, key, asked) => c < |cfg.threads| && BgOf(s.bg, c, Chan(cfg, key)).pc == Idle
    case Serve(c, v) => MayServe(cfg, s, c, v)
    case Deliver(c, v) => MayDeliver(cfg, s, c, v)
    case SysTick(c) => MaySysTick(cfg, s, c)
    case Evict(c, key) => true
  }

  function DoInc(s: State, t: Thread, key: Key, delta: Row): State {
    var cell := Cell(delta, {|s.log|});
    s.(log := s.log + [Upd(t, Clock(s.clock, t), key, delta)],
       place := s.place + [InTable],
       tIndex := s.tIndex[t := Index(s.tIndex, t) + {key}],
       pOplog := s.pOplog[(t.client, key) := Merge(Oplog(s.pOplog, (t.client, key)), cell)],
       pRow := MergeRow(s.pRow, t.client, key, cell))
  }

  function DoThreadInc(s: State, t: Thread, key: Key, delta: Row): State {
    var cell := Cell(delta, {|s.log|});
    s.(log := s.log + [Upd(t, Clock(s.clock, t), key, delta)],
       place := s.place + [InThread],
       tOplog := s.tOplog[(t, key) := Merge(Oplog(s.tOplog, (t, key)), cell)],
       tCache := if (t, key) in s.tCache then s.tCache[(t, key) := Merge(s.tCache[(t, key)], cell)] else s.tCache)
  }

  /** A thread oplog is added to the table oplog, to the process row if it is cached, and to the thread's index;
      but to the index only if iterating over it finds a column. */
  function DoFlushRow(s: State, t: Thread, key: Key, indexed: bool): State {
    var cell := Oplog(s.tOplog, (t, key));
    var moved := if indexed then cell else ZERO;
    s.(place := Move(s.place, cell.ids, if indexed then InTable else Gone),
       tOplog := s.tOplog - {(t, key)},
       tCache := s.tCache - {(t, key)},
       gone := if indexed then s.gone else s.gone[key := Merge(Oplog(s.gone, key), cell)],
       tIndex := if indexed then s.tIndex[t := Index(s.tIndex, t) + {key}] else s.tIndex,
       pOplog := s.pOplog[(t.client, key) := Merge(Oplog(s.pOplog, (t.client, key)), moved)],
       pRow := if indexed then MergeRow(s.pRow, t.client, key, cell) else s.pRow)
  }

  function DoClockBegin(cfg: Config, s: State, t: Thread): State {
    s.(clock := s.clock[t := Clock(s.clock, t) + 1], pc := s.pc[t := FirstTable(cfg, 0)])
  }

  /** A thread drops the rows of one table that it has cached: at the end of the flush, and whenever it asks for it. */
  function Uncached(tCache: map<(Thread, Key), Cell>, t: Thread, table: nat): map<(Thread, Key), Cell> {
    map w | w in tCache && !(w.0 == t && w.1.table == table) :: tCache[w]
  }

  function DoEndFlush(s: State, t: Thread, table: nat): State {
    s.(tCache := Uncached(s.tCache, t, table),
       pc := s.pc[t := FlushIndex(table, 0)])
  }

  function DoAddIndex(cfg: Config, s: State, t: Thread, table: nat, p: nat): State {
    var part := set k | k in Index(s.tIndex, t) && k.table == table && Chan(cfg, k) == p;
    s.(sIndex := s.sIndex[t.client := Index(s.sIndex, t.client) + part],
       tIndex := s.tIndex[t := Index(s.tIndex, t) - part],
       pc := s.pc[t := if p + 1 < cfg.channels then FlushIndex(table, p + 1) else FirstTable(cfg, table + 1)])
  }

  ghost function DoTick(cfg: Config, s: State, t: Thread): State {
    s.(ticks := s.ticks[t := Clock(s.ticks, t) + 1],
       pc := s.pc[t := if UniqueMin(cfg, s.ticks, t) then Posting(0) else Running])
  }

  function DoPost(cfg: Config, s: State, t: Thread, p: nat): State {
    s.(posted := s.posted[(t.client, p) := Posted(s.posted, t.client, p) + 1],
       pc := s.pc[t := if p + 1 < cfg.channels then Posting(p + 1) else Running])
  }

  /** A read clones the process row into the thread cache and applies the thread's oplog to the clone. */
  function DoFetch(s: State, t: Thread, key: Key): State
    requires (t.client, key) in s.pRow
  {
    s.(tCache := s.tCache[(t, key) := Merge(s.pRow[(t.client, key)].cell, Oplog(s.tOplog, (t, key)))])
  }

  function DoStart(s: State, c: nat, p: nat, isClock: bool): State {
    s.(bg := s.bg[(c, p) := BgOf(s.bg, c, p).(pc := Drain(isClock, 0, {}, map[]))])
  }

  function DoTake(cfg: Config, s: State, c: nat, p: nat): State
    requires BgOf(s.bg, c, p).pc.Drain?
  {
    var b := BgOf(s.bg, c, p);
    var part := set k | k in Index(s.sIndex, c) && k.table == b.pc.table && Chan(cfg, k) == p;
    s.(sIndex := s.sIndex[c := Index(s.sIndex, c) - part],
       bg := s.bg[(c, p) := b.(pc := b.pc.(taken := part, table := b.pc.table + 1))])
  }

  /** The table oplog of a row that was taken is erased, if there is one, and goes into the next batch. */
  function DoErase(s: State, c: nat, p: nat, key: Key): State
    requires BgOf(s.bg, c, p).pc.Drain?
  {
    s.(place := Move(s.place, Oplog(s.pOplog, (c, key)).ids, InBg),
       pOplog := s.pOplog - {(c, key)},
       bg := s.bg[(c, p) := Erase(BgOf(s.bg, c, p), s.pOplog, c, key)])
  }

  function Erase(b: Bg, pOplog: map<(nat, Key), Cell>, c: nat, key: Key): Bg
    requires b.pc.Drain?
  {
    b.(pc := b.pc.(taken := b.pc.taken - {key},
                   got := if (c, key) in pOplog then b.pc.got[key := pOplog[(c, key)]] else b.pc.got))
  }

  /** The rows that were gathered become the next batch. */
  function DoPack(cfg: Config, s: State, c: nat, p: nat): State
    requires BgOf(s.bg, c, p).pc.Drain? && BgOf(s.bg, c, p).hist != [] && |s.place| == |s.log|
  {
    var b := BgOf(s.bg, c, p);
    var last := b.hist[|b.hist| - 1];
    s.(place := seq(|s.place|, i requires 0 <= i < |s.place| =>
         if s.place[i] == InBg && s.log[i].thread.client == c && Chan(cfg, s.log[i].key) == p
         then Sent(|b.saved|) else s.place[i]),
       bg := s.bg[(c, p) := Bg(b.saved + [b.pc.got],
                               b.hist + [if b.pc.isClock then last + 1 else last],
                               Sending(b.pc.isClock, 0))])
  }

  function DoSend(cfg: Config, s: State, c: nat, p: nat): State
    requires BgOf(s.bg, c, p).pc.Sending? && 0 < |BgOf(s.bg, c, p).saved| <= |BgOf(s.bg, c, p).hist|
  {
    var b := BgOf(s.bg, c, p);
    var v := Srv(b.pc.next, p);
    var k: nat := |b.saved| - 1;
    s.(up := s.up[(c, v) := Queue(s.up, c, v) + [Batch(k, b.pc.isClock, b.hist[k] + 1, Restrict(cfg, b.saved[k], v))]],
       bg := s.bg[(c, p) := b.(pc := b.pc.(next := b.pc.next + 1))])
  }

  function DoFinish(s: State, c: nat, p: nat): State {
    s.(bg := s.bg[(c, p) := BgOf(s.bg, c, p).(pc := Idle)])
  }

  function DoRequest(cfg: Config, s: State, c: nat, key: Key, asked: int): State {
    var v := Home(cfg, key);
    s.(up := s.up[(c, v) := Queue(s.up, c, v) + [Ask(key, asked)]])
  }

  function DoServe(cfg: Config, s: State, c: nat, v: Srv): State
    requires Queue(s.up, c, v) != []
  {
    var q := Queue(s.up, c, v);
    var sv := SrvOf(cfg, s.srv, v);
    var s1 := s.(up := s.up[(c, v) := q[1..]]);
    match q[0]
    case Ask(key, clock) =>
      var r := sv.OnRowRequest(cfg.push, c, key, clock);
      s1.(srv := s.srv[v := r.0], down := s.down[(c, v) := Queue(s.down, c, v) + r.1])
    case Batch(version, isClock, bgClock, rows) =>
      s1.(srv := s.srv[v := sv.OnOpLog(cfg.push, c, isClock, bgClock, rows)],
          down := map w: (nat, Srv) |
            w in s.down.Keys + (set to: nat | to < |cfg.threads| :: (to, v)) ::
              Queue(s.down, w.0, w.1)
              + if w.1 == v && w.0 < |cfg.threads|
                then sv.OutTo(cfg.push, c, isClock, bgClock, rows, w.0) else [])
  }

  /** Rows in a push that the client does not cache are skipped. */
  function DoDeliver(s: State, c: nat, v: Srv): State
    requires Queue(s.down, c, v) != []
  {
    var q := Queue(s.down, c, v);
    var saved := BgOf(s.bg, c, v.chan).saved;
    var s1 := s.(down := s.down[(c, v) := q[1..]], seen := s.seen[(c, v) := q[0].clock]);
    match q[0]
    case Reply(key, clock, ver, copy) =>
      s1.(pRow := s.pRow[(c, key) := Refreshed(saved, s.pOplog, c, key, clock, ver, copy)])
    case Push(clock, ver, rows) =>
      s1.(pRow := map w | w in s.pRow ::
            if w.0 == c && w.1 in rows
            then Refreshed(saved, s.pOplog, c, w.1, s.pRow[w].clock, ver, rows[w.1]) else s.pRow[w],
          pushClock := s.pushClock[(c, v) := clock])
  }

  ghost function Next(cfg: Config, s: State, step: Step): State
    requires Can(cfg, s, step)
  {
    match step
    case Inc(t, key, delta) => DoInc(s, t, key, delta)
    case ThreadInc(t, key, delta) => DoThreadInc(s, t, key, delta)
    case FlushRow(t, key, indexed) => DoFlushRow(s, t, key, indexed)
    case ClockBegin(t) => DoClockBegin(cfg, s, t)
    case EndFlush(t) => DoEndFlush(s, t, PcOf(s.pc, t).table)
    case AddIndex(t) => DoAddIndex(cfg, s, t, PcOf(s.pc, t).table, PcOf(s.pc, t).chan)
    case TickClock(t) => DoTick(cfg, s, t)
    case Post(t) => DoPost(cfg, s, t, PcOf(s.pc, t).chan)
    case Fetch(t, key) => DoFetch(s, t, key)
    case Forget(t, table) => s.(tCache := Uncached(s.tCache, t, table))
    case BgStart(c, p, isClock) => DoStart(s, c, p, isClock)
    case BgTake(c, p) => DoTake(cfg, s, c, p)
    case BgErase(c, p, key) => DoErase(s, c, p, key)
    case BgPack(c, p) => DoPack(cfg, s, c, p)
    case BgSend(c, p) => DoSend(cfg, s, c, p)
    case BgFinish(c, p) => DoFinish(s, c, p)
    case BgRequest(c, key, asked) => DoRequest(cfg, s, c, key, asked)
    case Serve(c, v) => DoServe(cfg, s, c, v)
    case Deliver(c, v) => DoDeliver(s, c, v)
    case SysTick(c) => s.(sysClock := s.sysClock[c := SysClockOf(s.sysClock, c) + 1])
    case Evict(c, key) => s.(pRow := s.pRow - {(c, key)})
  }

  ghost predicate Legal(cfg: Config, steps: seq<Step>)
    decreases |steps|, 0
  {
    steps == [] ||
    (var n := |steps| - 1; Legal(cfg, steps[..n]) && Can(cfg, Run(cfg, steps[..n]), steps[n]))
  }

  /** The state after a run. */
  ghost function Run(cfg: Config, steps: seq<Step>): State
    requires Legal(cfg, steps)
    decreases |steps|, 1
  {
    if steps == [] then INIT
    else Next(cfg, Run(cfg, steps[..|steps| - 1]), steps[|steps| - 1])
  }
}
