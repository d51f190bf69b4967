/** The invariant of the protocol, in groups. Each group names the state components it speaks about, so that a
    step that leaves them alone keeps the group for free. */
module Invariant {
  import opened Rows
  import opened VectorClocks
  import opened ServerSpec
  import opened Protocol

  // ---- Clocks ----

  ghost predicate ClockTicks(clock: map<Thread, nat>, pc: map<Thread, Pc>, ticks: map<Thread, nat>) {
    forall t :: Clock(clock, t) == Clock(ticks, t) + if PcOf(pc, t).Running? || PcOf(pc, t).Posting? then 0 else 1
  }

  ghost predicate PostedBy(cfg: Config, ticks: map<Thread, nat>, posted: map<(nat, nat), nat>, t: Thread) {
    forall p: nat :: p < cfg.channels ==> Posted(posted, t.client, p) <= Clock(ticks, t)
  }

  /** While t posts, it is one of the slowest threads, the only one that posts, and everybody has ticked past the
      clocks it has yet to post. */
  ghost predicate Poster(cfg: Config, pc: map<Thread, Pc>, ticks: map<Thread, nat>, posted: map<(nat, nat), nat>,
                         t: Thread, o: Thread)
  {
    PcOf(pc, t).Posting? ==>
      && Clock(ticks, t) <= Clock(ticks, o)
      && (PcOf(pc, o).Posting? ==> o == t)
      && (forall p: nat :: PcOf(pc, t).chan <= p < cfg.channels ==> Posted(posted, t.client, p) < Clock(ticks, o))
  }

  /** The clock messages posted to a background worker never run ahead of any thread of the client. */
  ghost predicate Clocks(cfg: Config, clock: map<Thread, nat>, pc: map<Thread, Pc>, ticks: map<Thread, nat>,
                         posted: map<(nat, nat), nat>)
  {
    && ClockTicks(clock, pc, ticks)
    && (forall t {:trigger PostedBy(cfg, ticks, posted, t)} :: cfg.HasThread(t) ==> PostedBy(cfg, ticks, posted, t))
    && (forall t, o {:trigger Poster(cfg, pc, ticks, posted, t, o)} ::
          cfg.HasThread(t) && cfg.HasThread(o) && o.client == t.client ==> Poster(cfg, pc, ticks, posted, t, o))
  }

  ghost predicate BgFine(cfg: Config, posted: nat, b: Bg, p: nat) {
    && |b.hist| == |b.saved| + 1
    && b.hist[0] == 0
    && (forall j, k :: 0 <= j <= k < |b.hist| ==> b.hist[j] <= b.hist[k])
    && (forall j :: 0 <= j < |b.saved| ==> b.hist[j + 1] <= b.hist[j] + 1)
    && b.hist[|b.saved|] <= posted
    && match b.pc
       case Idle => true
       case Drain(isClock, table, taken, got) =>
         && (isClock ==> b.hist[|b.saved|] < posted)
         && table <= cfg.tables
         && (forall k :: k in taken ==> k.table < table && Chan(cfg, k) == p && k !in got)
         && (forall k :: k in got ==> k.table < table)
       case Sending(isClock, next) =>
         && b.saved != [] && next <= |cfg.threads|
         && b.hist[|b.saved|] == b.hist[|b.saved| - 1] + if isClock then 1 else 0
  }

  ghost predicate Bgs(cfg: Config, posted: map<(nat, nat), nat>, bg: map<(nat, nat), Bg>) {
    forall c: nat, p: nat :: cfg.HasBg(c, p) ==> BgFine(cfg, Posted(posted, c, p), BgOf(bg, c, p), p)
  }

  // ---- Flushing ----

  predicate PcFine(cfg: Config, pc: Pc) {
    match pc
    case FlushCache(i) => i < cfg.tables
    case FlushIndex(i, p) => i < cfg.tables && p < cfg.channels
    case Posting(p) => p < cfg.channels
    case _ => true
  }

  predicate MayHold(pc: Pc, table: nat) {
    match pc
    case Running => true
    case FlushCache(i) => i <= table
    case FlushIndex(i, _) => i < table
    case Ticking => false
    case Posting(_) => false
  }

  predicate MayIndex(pc: Pc, table: nat, chan: nat) {
    match pc
    case FlushIndex(i, p) => i < table || (i == table && p <= chan)
    case _ => MayHold(pc, table)
  }

  /** Thread rows and thread oplogs are only there while the thread has not flushed their table. */
  ghost predicate Held(cfg: Config, pc: map<Thread, Pc>, keys: set<(Thread, Key)>) {
    forall w :: w in keys ==> cfg.HasThread(w.0) && w.1.table < cfg.tables && MayHold(PcOf(pc, w.0), w.1.table)
  }

  ghost predicate Indexed(cfg: Config, pc: map<Thread, Pc>, tIndex: map<Thread, set<Key>>) {
    forall t, k :: k in Index(tIndex, t) ==> k.table < cfg.tables && MayIndex(PcOf(pc, t), k.table, Chan(cfg, k))
  }

  /** What a thread inside Clock has flushed so far. */
  ghost predicate Flushes(cfg: Config, pc: map<Thread, Pc>, tOplog: map<(Thread, Key), Cell>,
                          tIndex: map<Thread, set<Key>>, tCache: map<(Thread, Key), Cell>)
  {
    && (forall t :: PcFine(cfg, PcOf(pc, t)))
    && Held(cfg, pc, tOplog.Keys)
    && Indexed(cfg, pc, tIndex)
    && Held(cfg, pc, tCache.Keys)
  }

  // ---- Where each update is: in exactly one place ----

  ghost predicate LogOk(cfg: Config, log: seq<Upd>, place: seq<Place>) {
    && |place| == |log|
    && (forall i :: 0 <= i < |log| ==> cfg.HasThread(log[i].thread) && log[i].key.table < cfg.tables)
  }

  ghost predicate ThreadOplogs(log: seq<Upd>, place: seq<Place>, tOplog: map<(Thread, Key), Cell>)
    requires |place| == |log|
  {
    && (forall i :: 0 <= i < |place| && place[i] == InThread ==>
          (log[i].thread, log[i].key) in tOplog && i in tOplog[(log[i].thread, log[i].key)].ids)
    && (forall w, i: nat {:trigger i in tOplog[w].ids} :: w in tOplog && i in tOplog[w].ids ==>
          i < |place| && place[i] == InThread && w == (log[i].thread, log[i].key))
  }

  ghost predicate TableOplogs(log: seq<Upd>, place: seq<Place>, pOplog: map<(nat, Key), Cell>)
    requires |place| == |log|
  {
    && (forall i :: 0 <= i < |place| && place[i] == InTable ==>
          (log[i].thread.client, log[i].key) in pOplog && i in pOplog[(log[i].thread.client, log[i].key)].ids)
    && (forall w, i: nat {:trigger i in pOplog[w].ids} :: w in pOplog && i in pOplog[w].ids ==>
          i < |place| && place[i] == InTable && w == (log[i].thread.client, log[i].key))
  }

  ghost predicate Cancelled(log: seq<Upd>, place: seq<Place>, gone: map<Key, Cell>)
    requires |place| == |log|
  {
    && (forall i :: 0 <= i < |place| && place[i] == Gone ==> log[i].key in gone && i in gone[log[i].key].ids)
    && (forall k, i: nat {:trigger i in gone[k].ids} :: k in gone && i in gone[k].ids ==>
          i < |place| && place[i] == Gone && log[i].key == k)
    && (forall k, col :: k in gone ==> Val(gone[k].vals, col) == 0)
  }

  function BgFor(cfg: Config, bg: map<(nat, nat), Bg>, u: Upd): Bg {
    BgOf(bg, u.thread.client, Chan(cfg, u.key))
  }

  ghost predicate Gathered(cfg: Config, log: seq<Upd>, place: seq<Place>, bg: map<(nat, nat), Bg>)
    requires |place| == |log|
  {
    && (forall i :: 0 <= i < |place| && place[i] == InBg ==>
          var b := BgFor(cfg, bg, log[i]); b.pc.Drain? && log[i].key in b.pc.got && i in b.pc.got[log[i].key].ids)
    && (forall c: nat, p: nat, k, i: nat {:trigger i in BgOf(bg, c, p).pc.got[k].ids} ::
          (cfg.HasBg(c, p) && BgOf(bg, c, p).pc.Drain?
           && k in BgOf(bg, c, p).pc.got && i in BgOf(bg, c, p).pc.got[k].ids) ==>
          i < |place| && place[i] == InBg && log[i].thread.client == c && log[i].key == k && Chan(cfg, k) == p)
  }

  ghost predicate Batches(cfg: Config, log: seq<Upd>, place: seq<Place>, bg: map<(nat, nat), Bg>)
    requires |place| == |log|
  {
    && (forall i :: 0 <= i < |place| && place[i].Sent? ==>
          var b := BgFor(cfg, bg, log[i]);
          var n := place[i].batch;
          n < |b.saved| && log[i].key in b.saved[n] && i in b.saved[n][log[i].key].ids)
    && (forall c: nat, p: nat, n, k, i: nat {:trigger i in BgOf(bg, c, p).saved[n][k].ids} ::
          (cfg.HasBg(c, p) && 0 <= n < |BgOf(bg, c, p).saved|
           && k in BgOf(bg, c, p).saved[n] && i in BgOf(bg, c, p).saved[n][k].ids) ==>
          i < |place| && place[i] == Sent(n) && log[i].thread.client == c && log[i].key == k && Chan(cfg, k) == p)
  }

  /** A server row holds exactly the updates of the batches the server has applied. */
  ghost predicate ServerRows(cfg: Config, log: seq<Upd>, place: seq<Place>, srv: map<Srv, Server>)
    requires |place| == |log|
  {
    && (forall i :: 0 <= i < |place| && place[i].Sent? ==>
          var s := SrvOf(cfg, srv, Home(cfg, log[i].key));
          place[i].batch < s.Ver(log[i].thread.client) ==> i in s.RowAt(log[i].key).ids)
    && (forall v, k, i: nat {:trigger i in SrvOf(cfg, srv, v).RowAt(k).ids} ::
          cfg.HasServer(v) && i in SrvOf(cfg, srv, v).RowAt(k).ids ==>
          i < |place| && place[i].Sent? && log[i].key == k && Home(cfg, k) == v
          && place[i].batch < SrvOf(cfg, srv, v).Ver(log[i].thread.client))
  }

  // ---- Updates are never behind the clock messages that promise them ----

  ghost predicate Covered(cfg: Config, u: Upd, ticks: map<Thread, nat>, tIndex: map<Thread, set<Key>>,
                          sIndex: map<nat, set<Key>>, bg: map<(nat, nat), Bg>)
  {
    || (u.key in Index(tIndex, u.thread) && Clock(ticks, u.thread) <= u.clock)
    || u.key in Index(sIndex, u.thread.client)
    || (BgFor(cfg, bg, u).pc.Drain? && u.key in BgFor(cfg, bg, u).pc.taken)
  }

  /** Every row that holds an unsent table oplog is in some index, or was taken and is still to be drained. */
  ghost predicate Coverage(cfg: Config, log: seq<Upd>, place: seq<Place>, ticks: map<Thread, nat>,
                           tIndex: map<Thread, set<Key>>, sIndex: map<nat, set<Key>>, bg: map<(nat, nat), Bg>)
    requires |place| == |log|
  {
    && (forall i :: 0 <= i < |place| && place[i] == InTable ==> Covered(cfg, log[i], ticks, tIndex, sIndex, bg))
    && (forall i :: 0 <= i < |place| && place[i] == InThread ==> Clock(ticks, log[i].thread) <= log[i].clock)
  }

  ghost predicate InTimeAt(pl: Place, u: Upd, b: Bg)
    requires b.hist != []
  {
    var last := b.hist[|b.hist| - 1];
    match pl
    case InThread => last <= u.clock
    case InTable =>
      && last <= u.clock
      && (b.pc.Drain? && b.pc.isClock && u.key.table < b.pc.table && u.key !in b.pc.taken ==> last < u.clock)
    case InBg => last <= u.clock
    case Sent(n) => n < |b.hist| && b.hist[n] <= u.clock
    case Gone => true
  }

  ghost predicate InTime(cfg: Config, log: seq<Upd>, place: seq<Place>, bg: map<(nat, nat), Bg>)
    requires |place| == |log|
  {
    forall i :: 0 <= i < |place| ==>
      BgFor(cfg, bg, log[i]).hist != [] && InTimeAt(place[i], log[i], BgFor(cfg, bg, log[i]))
  }

  // ---- Channels to the servers ----

  /** The queue from a background worker to a server holds batches ver..upto, in order. */
  ghost predicate UpOk(cfg: Config, saved: seq<map<Key, Cell>>, hist: seq<nat>, v: Srv, q: seq<Up>, ver: nat,
                       upto: nat)
    decreases |q|
  {
    if q == [] then ver == upto
    else match q[0]
      case Ask(key, _) => Home(cfg, key) == v && UpOk(cfg, saved, hist, v, q[1..], ver, upto)
      case Batch(version, isClock, bgClock, rows) =>
        && version == ver < upto <= |saved| && ver + 1 < |hist|
        && rows == Restrict(cfg, saved[ver], v)
        && hist[ver + 1] == hist[ver] + (if isClock then 1 else 0)
        && bgClock == hist[ver] + 1
        && UpOk(cfg, saved, hist, v, q[1..], ver + 1, upto)
  }

  /** How many batches have been put into the queue to a server. */
  function SentUpTo(b: Bg, v: Srv): int {
    if b.pc.Sending? && b.pc.next <= v.host then |b.saved| - 1 else |b.saved|
  }

  ghost predicate Link(cfg: Config, c: nat, v: Srv, b: Bg, s: Server, q: seq<Up>) {
    && 0 <= s.Ver(c) <= SentUpTo(b, v) < |b.hist|
    && UpOk(cfg, b.saved, b.hist, v, q, s.Ver(c), SentUpTo(b, v))
    && c in s.vc.clk && s.vc.clk[c] == b.hist[s.Ver(c)]
  }

  ghost predicate Network(cfg: Config, bg: map<(nat, nat), Bg>, up: map<(nat, Srv), seq<Up>>, srv: map<Srv, Server>) {
    && (forall v :: cfg.HasServer(v) ==>
          SrvOf(cfg, srv, v).vc.Valid() && forall c :: c in SrvOf(cfg, srv, v).vc.clk <==> 0 <= c < |cfg.threads|)
    && (forall c: nat, v :: c < |cfg.threads| && cfg.HasServer(v) ==>
          Link(cfg, c, v, BgOf(bg, c, v.chan), SrvOf(cfg, srv, v), Queue(up, c, v)))
  }

  // ---- Copies of server rows ----

  /** A copy for client c made when the server had `ver` of c's batches: of c's own updates it has just those. */
  ghost predicate BaseOk(log: seq<Upd>, place: seq<Place>, c: nat, key: Key, base: set<nat>, ver: nat)
    requires |place| == |log|
  {
    && (forall i: nat {:trigger i in base} :: i in base ==>
          i < |place| && log[i].key == key && place[i].Sent?
          && (log[i].thread.client == c ==> place[i].batch < ver))
    && (forall i ::
          (0 <= i < |place| && log[i].key == key && log[i].thread.client == c
           && place[i].Sent? && place[i].batch < ver) ==> i in base)
  }

  ghost predicate CopyOk(log: seq<Upd>, place: seq<Place>, c: nat, key: Key, ver: nat, upto: nat, copy: Cell)
    requires |place| == |log|
  {
    ver <= upto && BaseOk(log, place, c, key, copy.ids, ver) && CellOk(log, copy)
  }

  ghost predicate DownOk(cfg: Config, log: seq<Upd>, place: seq<Place>, c: nat, v: Srv, upto: nat, d: Down)
    requires |place| == |log|
  {
    match d
    case Reply(key, _, ver, copy) => Home(cfg, key) == v && CopyOk(log, place, c, key, ver, upto, copy)
    case Push(_, ver, rows) =>
      cfg.push && forall k :: k in rows ==> Home(cfg, k) == v && CopyOk(log, place, c, k, ver, upto, rows[k])
  }

  ghost predicate Copies(cfg: Config, log: seq<Upd>, place: seq<Place>, bg: map<(nat, nat), Bg>,
                         down: map<(nat, Srv), seq<Down>>)
    requires |place| == |log|
  {
    forall c: nat, v, n :: c < |cfg.threads| && cfg.HasServer(v) && 0 <= n < |Queue(down, c, v)| ==>
      DownOk(cfg, log, place, c, v, |BgOf(bg, c, v.chan).saved|, Queue(down, c, v)[n])
  }

  predicate Left(p: Place) {
    p == InTable || p == InBg || p.Sent?
  }

  /** A process row holds the copy it came from and, once each, all of its own client's updates that have left
      the thread oplogs. */
  ghost predicate PRowOk(log: seq<Upd>, place: seq<Place>, c: nat, key: Key, upto: nat, r: PRow)
    requires |place| == |log|
  {
    && r.ver <= upto && BaseOk(log, place, c, key, r.base, r.ver) && CellOk(log, r.cell)
    && (forall i: nat {:trigger i in r.cell.ids} :: i in r.cell.ids ==>
          i < |place| && (i in r.base || (log[i].key == key && log[i].thread.client == c && Left(place[i]))))
    && (forall i: nat :: i in r.base ==> i in r.cell.ids)
    && (forall i :: 0 <= i < |place| && log[i].key == key && log[i].thread.client == c && Left(place[i])
          ==> i in r.cell.ids)
  }

  ghost predicate PRows(cfg: Config, log: seq<Upd>, place: seq<Place>, bg: map<(nat, nat), Bg>,
                        pRow: map<(nat, Key), PRow>)
    requires |place| == |log|
  {
    forall w :: w in pRow ==>
      && w.0 < |cfg.threads|
      && PRowOk(log, place, w.0, w.1, |BgOf(bg, w.0, Chan(cfg, w.1)).saved|, pRow[w])
  }

  // ---- Freshness of copies ----

  /** `ids` has every update of the row from iterations before `m`. */
  ghost predicate Fresh(log: seq<Upd>, place: seq<Place>, key: Key, ids: set<nat>, m: int)
    requires |place| == |log|
  {
    forall i :: 0 <= i < |log| && log[i].key == key && log[i].clock < m ==> i in ids || place[i] == Gone
  }

  /** The copies of one server's rows that a client holds. */
  function ViewOf(cfg: Config, pRow: map<(nat, Key), PRow>, c: nat, v: Srv): map<Key, set<nat>> {
    map w | w in pRow && w.0 == c && Home(cfg, w.1) == v :: w.1 := pRow[w].base
  }

  function Seen(view: map<Key, set<nat>>, d: Down): map<Key, set<nat>> {
    match d
    case Reply(key, _, _, copy) => view[key := copy.ids]
    case Push(_, _, rows) => map k | k in view :: if k in rows then rows[k].ids else view[k]
  }

  function EndView(view: map<Key, set<nat>>, q: seq<Down>): map<Key, set<nat>>
    decreases |q|
  {
    if q == [] then view else EndView(Seen(view, q[0]), q[1..])
  }

  function EndClock(clock: int, q: seq<Down>): int
    decreases |q|
  {
    if q == [] then clock else EndClock(q[0].clock, q[1..])
  }

  /** A reply is as fresh as the clock it carries. A push makes every row that the client then holds that fresh,
      those it brings and those it does not. */
  ghost predicate GoodOne(log: seq<Upd>, place: seq<Place>, view: map<Key, set<nat>>, clock: int, d: Down)
    requires |place| == |log|
  {
    && clock <= d.clock
    && match d
       case Reply(key, m, _, copy) => Fresh(log, place, key, copy.ids, m)
       case Push(m, _, rows) =>
         && (forall k :: k in rows ==> Fresh(log, place, k, rows[k].ids, m))
         && (forall k :: k in view && k !in rows ==> Fresh(log, place, k, view[k], m))
  }

  ghost predicate Good(log: seq<Upd>, place: seq<Place>, view: map<Key, set<nat>>, clock: int, q: seq<Down>)
    requires |place| == |log|
    decreases |q|
  {
    q == [] ||
    (GoodOne(log, place, view, clock, q[0]) && Good(log, place, Seen(view, q[0]), q[0].clock, q[1..]))
  }

  ghost predicate DownstreamAt(log: seq<Upd>, place: seq<Place>, view: map<Key, set<nat>>, clock: int, q: seq<Down>,
                               s: Server)
    requires |place| == |log|
  {
    && Good(log, place, view, clock, q)
    && EndClock(clock, q) <= s.vc.min
    && clock <= s.vc.min
  }

  ghost predicate Downstream(cfg: Config, log: seq<Upd>, place: seq<Place>, pRow: map<(nat, Key), PRow>,
                             seen: map<(nat, Srv), int>, down: map<(nat, Srv), seq<Down>>, srv: map<Srv, Server>)
    requires |place| == |log|
  {
    forall c: nat, v :: c < |cfg.threads| && cfg.HasServer(v) ==>
      DownstreamAt(log, place, ViewOf(cfg, pRow, c, v), ClockAt(seen, c, v), Queue(down, c, v), SrvOf(cfg, srv, v))
  }

  /** A server is only asked for its own rows. */
  ghost predicate ServerKeys(cfg: Config, srv: map<Srv, Server>) {
    forall v :: cfg.HasServer(v) ==> OwnKeys(cfg, v, SrvOf(cfg, srv, v))
  }

  ghost predicate OwnKeys(cfg: Config, v: Srv, s: Server) {
    && (forall w, k {:trigger k in s.pending[w]} :: w in s.pending && k in s.pending[w] ==> Home(cfg, k) == v)
    && (forall w :: w in s.subs ==> Home(cfg, w.1) == v)
  }

  /** The last copies sent to a client are of rows it subscribes to, and those of clean rows are the rows as they are
      now. */
  ghost predicate CoherentView(s: Server, c: nat, view: map<Key, set<nat>>) {
    forall k :: k in view ==> (c, k) in s.subs && (k !in s.dirty ==> view[k] == s.RowAt(k).ids)
  }

  ghost predicate Coherent(cfg: Config, pRow: map<(nat, Key), PRow>, down: map<(nat, Srv), seq<Down>>,
                           srv: map<Srv, Server>)
  {
    cfg.push ==>
      forall c: nat, v :: c < |cfg.threads| && cfg.HasServer(v) ==>
        CoherentView(SrvOf(cfg, srv, v), c, EndView(ViewOf(cfg, pRow, c, v), Queue(down, c, v)))
  }

  /** A cached row is as fresh as the clock it carries, and as the last push the client consumed. */
  ghost predicate RowFresh(log: seq<Upd>, place: seq<Place>, key: Key, r: PRow, pushed: int, seen: int)
    requires |place| == |log|
  {
    && Fresh(log, place, key, r.base, r.clock)
    && Fresh(log, place, key, r.base, pushed)
    && r.clock <= seen
  }

  ghost predicate RowsFresh(cfg: Config, log: seq<Upd>, place: seq<Place>, pRow: map<(nat, Key), PRow>,
                            seen: map<(nat, Srv), int>, pushClock: map<(nat, Srv), int>)
    requires |place| == |log|
  {
    forall w :: w in pRow ==>
      RowFresh(log, place, w.1, pRow[w], ClockAt(pushClock, w.0, Home(cfg, w.1)), ClockAt(seen, w.0, Home(cfg, w.1)))
  }

  ghost predicate SysClocks(cfg: Config, seen: map<(nat, Srv), int>, pushClock: map<(nat, Srv), int>,
                            sysClock: map<nat, int>)
  {
    forall c: nat, v :: c < |cfg.threads| && cfg.HasServer(v) ==>
      0 <= SysClockOf(sysClock, c) <= ClockAt(pushClock, c, v) <= ClockAt(seen, c, v)
  }

  // ---- Thread caches ----

  function StalestAt(cfg: Config, clock: map<Thread, nat>, t: Thread, table: nat): int
    requires table < cfg.tables
  {
    var d := Clock(clock, t) - cfg.staleness[table];
    if d > 0 then d else 0
  }

  /** Every thread has ticked at least m times. */
  ghost predicate AllTicked(cfg: Config, ticks: map<Thread, nat>, m: int) {
    forall o {:trigger Clock(ticks, o)} :: cfg.HasThread(o) ==> m <= Clock(ticks, o)
  }

  /** A thread row has everything that its thread has not flushed, and is fresh enough for the whole iteration. */
  ghost predicate ThreadRow(cfg: Config, log: seq<Upd>, place: seq<Place>, clock: map<Thread, nat>,
                            ticks: map<Thread, nat>, t: Thread, key: Key, mine: Cell, row: Cell)
    requires |place| == |log|
  {
    && key.table < cfg.tables
    && CellOk(log, row)
    && mine.ids <= row.ids
    && Fresh(log, place, key, row.ids, StalestAt(cfg, clock, t, key.table))
    && AllTicked(cfg, ticks, StalestAt(cfg, clock, t, key.table))
  }

  ghost predicate ThreadRows(cfg: Config, log: seq<Upd>, place: seq<Place>, clock: map<Thread, nat>,
                             pc: map<Thread, Pc>, ticks: map<Thread, nat>, tOplog: map<(Thread, Key), Cell>,
                             tCache: map<(Thread, Key), Cell>)
    requires |place| == |log|
  {
    forall w :: w in tCache && PcOf(pc, w.0) == Running ==>
      ThreadRow(cfg, log, place, clock, ticks, w.0, w.1, Oplog(tOplog, w), tCache[w])
  }

  // ---- Values ----

  ghost predicate AllOk<K(!new)>(log: seq<Upd>, m: map<K, Cell>) {
    forall k :: k in m ==> CellOk(log, m[k])
  }

  ghost predicate BgCells(log: seq<Upd>, b: Bg) {
    && (b.pc.Drain? ==> AllOk(log, b.pc.got))
    && (forall n {:trigger b.saved[n]} :: 0 <= n < |b.saved| ==> AllOk(log, b.saved[n]))
  }

  ghost predicate AllBgCells(cfg: Config, log: seq<Upd>, bg: map<(nat, nat), Bg>) {
    forall c: nat, p: nat :: cfg.HasBg(c, p) ==> BgCells(log, BgOf(bg, c, p))
  }

  /** Every stored row has, in every column, the sum of the updates it is meant to hold. */
  ghost predicate CellsOk(cfg: Config, log: seq<Upd>, tOplog: map<(Thread, Key), Cell>, gone: map<Key, Cell>,
                          pOplog: map<(nat, Key), Cell>, bg: map<(nat, nat), Bg>)
  {
    AllOk(log, tOplog) && AllOk(log, gone) && AllOk(log, pOplog) && AllBgCells(cfg, log, bg)
  }

  lemma AllOkSet<K(!new)>(log: seq<Upd>, m: map<K, Cell>, k: K, cell: Cell)
    requires AllOk(log, m) && CellOk(log, cell)
    ensures AllOk(log, m[k := cell])
  {
    hide CellOk;
  }

  lemma OplogOk<K(!new)>(log: seq<Upd>, m: map<K, Cell>, k: K)
    requires AllOk(log, m)
    ensures CellOk(log, Oplog(m, k))
  {
    ZeroOk(log);
    hide CellOk;
  }

  ghost predicate ServerCells(cfg: Config, log: seq<Upd>, srv: map<Srv, Server>) {
    forall v, k :: cfg.HasServer(v) ==> CellOk(log, SrvOf(cfg, srv, v).RowAt(k))
  }

  // ---- All of it ----

  ghost predicate Where(cfg: Config, s: State) {
    && LogOk(cfg, s.log, s.place)
    && ThreadOplogs(s.log, s.place, s.tOplog)
    && TableOplogs(s.log, s.place, s.pOplog)
    && Cancelled(s.log, s.place, s.gone)
    && Gathered(cfg, s.log, s.place, s.bg)
    && Batches(cfg, s.log, s.place, s.bg)
    && ServerRows(cfg, s.log, s.place, s.srv)
  }

  ghost predicate Timing(cfg: Config, s: State) {
    && Clocks(cfg, s.clock, s.pc, s.ticks, s.posted)
    && Bgs(cfg, s.posted, s.bg)
    && Flushes(cfg, s.pc, s.tOplog, s.tIndex, s.tCache)
    && |s.place| == |s.log|
    && Coverage(cfg, s.log, s.place, s.ticks, s.tIndex, s.sIndex, s.bg)
    && InTime(cfg, s.log, s.place, s.bg)
    && Network(cfg, s.bg, s.up, s.srv)
  }

  ghost predicate Caches(cfg: Config, s: State) {
    && |s.place| == |s.log|
    && Copies(cfg, s.log, s.place, s.bg, s.down)
    && PRows(cfg, s.log, s.place, s.bg, s.pRow)
    && Downstream(cfg, s.log, s.place, s.pRow, s.seen, s.down, s.srv)
    && ServerKeys(cfg, s.srv)
    && Coherent(cfg, s.pRow, s.down, s.srv)
    && RowsFresh(cfg, s.log, s.place, s.pRow, s.seen, s.pushClock)
    && SysClocks(cfg, s.seen, s.pushClock, s.sysClock)
    && ThreadRows(cfg, s.log, s.place, s.clock, s.pc, s.ticks, s.tOplog, s.tCache)
  }

  ghost predicate Values(cfg: Config, s: State) {
    && CellsOk(cfg, s.log, s.tOplog, s.gone, s.pOplog, s.bg)
    && ServerCells(cfg, s.log, s.srv)
  }

  ghost predicate Inv(cfg: Config, s: State) {
    Where(cfg, s) && Timing(cfg, s) && Caches(cfg, s) && Values(cfg, s)
  }

  lemma InitTiming(cfg: Config)
    ensures Timing(cfg, INIT)
  {
    forall v | cfg.HasServer(v)
      ensures SrvOf(cfg, INIT.srv, v).vc.Valid()
      ensures forall c :: c in SrvOf(cfg, INIT.srv, v).vc.clk <==> 0 <= c < |cfg.threads|
    {
      assert 0 in SrvOf(cfg, INIT.srv, v).vc.clk;
    }
    forall c: nat, v | c < |cfg.threads| && cfg.HasServer(v)
      ensures Link(cfg, c, v, BgOf(INIT.bg, c, v.chan), SrvOf(cfg, INIT.srv, v), Queue(INIT.up, c, v))
    {
    }
  }

  lemma InitCaches(cfg: Config)
    ensures Caches(cfg, INIT)
  {
    forall c: nat, v | c < |cfg.threads| && cfg.HasServer(v)
      ensures EndView(ViewOf(cfg, INIT.pRow, c, v), Queue(INIT.down, c, v)) == map[]
    {
    }
  }

  lemma InitBatches(cfg: Config)
    ensures Batches(cfg, [], [], map[])
  {
    forall c: nat, p: nat ensures BgOf(map[], c, p).saved == [] {
    }
  }

  lemma InitServerRows(cfg: Config)
    ensures ServerRows(cfg, [], [], map[])
  {
    forall v, k ensures SrvOf(cfg, map[], v).RowAt(k) == ZERO {
    }
  }

  lemma InitOplogs(cfg: Config)
    ensures ThreadOplogs([], [], map[]) && TableOplogs([], [], map[]) && Cancelled([], [], map[])
  {
  }

  lemma InitGathered(cfg: Config)
    ensures Gathered(cfg, [], [], map[])
  {
    forall c: nat, p: nat ensures BgOf(map[], c, p).pc == Idle {
    }
  }

  lemma InitWhere(cfg: Config)
    ensures Where(cfg, INIT)
  {
    InitOplogs(cfg);
    InitGathered(cfg);
    InitBatches(cfg);
    InitServerRows(cfg);
    hide ThreadOplogs, TableOplogs, Cancelled, Gathered, Batches, ServerRows;
  }

  lemma InitValues(cfg: Config)
    ensures Values(cfg, INIT)
  {
    ZeroOk([]);
  }

  lemma InitInv(cfg: Config)
    ensures Inv(cfg, INIT)
  {
    InitWhere(cfg);
    InitTiming(cfg);
    InitCaches(cfg);
    InitValues(cfg);
  }
}
