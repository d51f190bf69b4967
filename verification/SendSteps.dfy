/** Packing a batch and sending it, and asking a server for a row. */
module SendSteps {
  import opened Rows
  import opened VectorClocks
  import opened ServerSpec
  import opened Protocol
  import opened Invariant
  import opened Moves
  import opened BgSteps

  // ---- BgPack ----

  lemma PackKeeps(cfg: Config, s: State, c: nat, p: nat)
    requires Inv(cfg, s) && MayPack(cfg, s, c, p)
    ensures Inv(cfg, DoPack(cfg, s, c, p))
  {
    PackWhere(cfg, s, c, p);
    PackTiming(cfg, s, c, p);
    PackCaches(cfg, s, c, p);
    PackValues(cfg, s, c, p);
    hide Where, Timing, Caches, Values;
  }

  ghost predicate Packed(cfg: Config, log: seq<Upd>, place: seq<Place>, place': seq<Place>, c: nat, p: nat, n: nat)
    requires |place'| == |place| == |log|
  {
    forall i {:trigger place[i]} {:trigger place'[i]} :: 0 <= i < |place| ==>
      if place[i] == InBg && log[i].thread.client == c && Chan(cfg, log[i].key) == p then place'[i] == Sent(n)
      else place'[i] == place[i]
  }

  /** The worker before and after: one more batch, and its clock message counted. */
  ghost predicate PackedBg(b: Bg, b': Bg) {
    && b.pc.Drain? && |b.hist| == |b.saved| + 1
    && b' == Bg(b.saved + [b.pc.got],
                b.hist + [if b.pc.isClock then b.hist[|b.saved|] + 1 else b.hist[|b.saved|]],
                Sending(b.pc.isClock, 0))
  }

  lemma PackState(cfg: Config, s: State, c: nat, p: nat)
    requires Bgs(cfg, s.posted, s.bg) && MayPack(cfg, s, c, p)
    ensures var s' := DoPack(cfg, s, c, p);
      && (c, p) in s'.bg && PackedBg(BgOf(s.bg, c, p), s'.bg[(c, p)])
      && s'.bg == s.bg[(c, p) := s'.bg[(c, p)]]
      && |s'.place| == |s.place| && Packed(cfg, s.log, s.place, s'.place, c, p, |BgOf(s.bg, c, p).saved|)
      && s' == s.(place := s'.place, bg := s'.bg)
  {
    assert BgFine(cfg, Posted(s.posted, c, p), BgOf(s.bg, c, p), p);
  }

  lemma PackedSame(cfg: Config, log: seq<Upd>, place: seq<Place>, place': seq<Place>, c: nat, p: nat, n: nat)
    requires |place'| == |place| == |log| && Packed(cfg, log, place, place', c, p, n)
    ensures SameThreadPlaces(place, place') && SameTablePlaces(place, place')
    ensures SameGonePlaces(place, place') && StillGone(place, place')
  {
  }

  lemma PackWhere(cfg: Config, s: State, c: nat, p: nat)
    requires Where(cfg, s) && Timing(cfg, s) && MayPack(cfg, s, c, p)
    ensures Where(cfg, DoPack(cfg, s, c, p))
  {
    hide ThreadOplogs, TableOplogs, Cancelled, Gathered, Batches, ServerRows, Bgs, Packed, PackedBg, DoPack,
         SameThreadPlaces, SameTablePlaces, SameGonePlaces, StillGone, Clocks, Flushes, Coverage, InTime, Network;
    PackState(cfg, s, c, p);
    var s' := DoPack(cfg, s, c, p);
    var n := |BgOf(s.bg, c, p).saved|;
    PackedSame(cfg, s.log, s.place, s'.place, c, p, n);
    MoveThreadOplogs(s.log, s.place, s'.place, s.tOplog);
    MoveTableOplogs(s.log, s.place, s'.place, s.pOplog);
    MoveCancelled(s.log, s.place, s'.place, s.gone);
    PackGathered(cfg, s.log, s.place, s'.place, s.bg, c, p, s'.bg[(c, p)]);
    PackBatches(cfg, s.log, s.place, s'.place, s.bg, c, p, s'.bg[(c, p)]);
    PackServerRows(cfg, s, s'.place, c, p, n);
  }

  lemma PackGathered(cfg: Config, log: seq<Upd>, place: seq<Place>, place': seq<Place>, bg: map<(nat, nat), Bg>,
                     c: nat, p: nat, b: Bg)
    requires |place'| == |place| == |log| && Gathered(cfg, log, place, bg)
    requires PackedBg(BgOf(bg, c, p), b) && Packed(cfg, log, place, place', c, p, |BgOf(bg, c, p).saved|)
    ensures Gathered(cfg, log, place', bg[(c, p) := b])
  {
    var bg' := bg[(c, p) := b];
    BgSet(bg, c, p, b);
    forall i | 0 <= i < |place'| && place'[i] == InBg
      ensures var b := BgFor(cfg, bg', log[i]); b.pc.Drain? && log[i].key in b.pc.got && i in b.pc.got[log[i].key].ids
    {
      assert place[i] == InBg;
    }
    forall d: nat, q: nat, k, i: nat | cfg.HasBg(d, q) && BgOf(bg', d, q).pc.Drain?
                                       && k in BgOf(bg', d, q).pc.got && i in BgOf(bg', d, q).pc.got[k].ids
      ensures i < |place'| && place'[i] == InBg
      ensures log[i].thread.client == d && log[i].key == k && Chan(cfg, k) == q
    {
      assert i in BgOf(bg, d, q).pc.got[k].ids;
      assert i < |place|;
    }
  }

  lemma PackBatches(cfg: Config, log: seq<Upd>, place: seq<Place>, place': seq<Place>, bg: map<(nat, nat), Bg>,
                    c: nat, p: nat, b: Bg)
    requires |place'| == |place| == |log| && Gathered(cfg, log, place, bg) && Batches(cfg, log, place, bg)
    requires PackedBg(BgOf(bg, c, p), b) && Packed(cfg, log, place, place', c, p, |BgOf(bg, c, p).saved|)
    ensures Batches(cfg, log, place', bg[(c, p) := b])
  {
    var was, bg' := BgOf(bg, c, p), bg[(c, p) := b];
    BgSet(bg, c, p, b);
    forall i | 0 <= i < |place'| && place'[i].Sent?
      ensures var b := BgFor(cfg, bg', log[i]);
        var n := place'[i].batch;
        n < |b.saved| && log[i].key in b.saved[n] && i in b.saved[n][log[i].key].ids
    {
      if place[i] == InBg {
        assert BgFor(cfg, bg, log[i]).pc.Drain?;
        assert b.saved[|was.saved|] == was.pc.got;
      } else {
        assert place[i].Sent?;
        assert BgFor(cfg, bg', log[i]).saved[place[i].batch] == BgFor(cfg, bg, log[i]).saved[place[i].batch];
      }
    }
    forall d: nat, q: nat, n, k, i: nat | cfg.HasBg(d, q) && 0 <= n < |BgOf(bg', d, q).saved|
                                          && k in BgOf(bg', d, q).saved[n] && i in BgOf(bg', d, q).saved[n][k].ids
      ensures i < |place'| && place'[i] == Sent(n)
      ensures log[i].thread.client == d && log[i].key == k && Chan(cfg, k) == q
    {
      if (d, q) == (c, p) && n == |was.saved| {
        assert b.saved[n] == was.pc.got;
        assert i in BgOf(bg, c, p).pc.got[k].ids;
      } else {
        assert BgOf(bg', d, q).saved[n] == BgOf(bg, d, q).saved[n];
        assert i in BgOf(bg, d, q).saved[n][k].ids;
      }
      assert i < |place|;
    }
  }

  /** The new batch is newer than anything a server has applied. */
  lemma PackServerRows(cfg: Config, s: State, place': seq<Place>, c: nat, p: nat, n: nat)
    requires |place'| == |s.place| == |s.log| && ServerRows(cfg, s.log, s.place, s.srv)
    requires Packed(cfg, s.log, s.place, place', c, p, n) && n == |BgOf(s.bg, c, p).saved|
    requires Network(cfg, s.bg, s.up, s.srv) && cfg.HasBg(c, p)
    ensures ServerRows(cfg, s.log, place', s.srv)
  {
    forall v | cfg.HasServer(v) && v.chan == p ensures SrvOf(cfg, s.srv, v).Ver(c) <= n {
      assert Link(cfg, c, v, BgOf(s.bg, c, v.chan), SrvOf(cfg, s.srv, v), Queue(s.up, c, v));
    }
    hide Network;
    PackedRows(cfg, s.log, s.place, place', s.srv, c, p, n);
  }

  lemma PackedRows(cfg: Config, log: seq<Upd>, place: seq<Place>, place': seq<Place>, srv: map<Srv, Server>,
                   c: nat, p: nat, n: nat)
    requires |place'| == |place| == |log| && ServerRows(cfg, log, place, srv)
    requires Packed(cfg, log, place, place', c, p, n)
    requires forall v :: cfg.HasServer(v) && v.chan == p ==> SrvOf(cfg, srv, v).Ver(c) <= n
    ensures ServerRows(cfg, log, place', srv)
  {
    forall i | 0 <= i < |place'| && place'[i].Sent?
      ensures var s := SrvOf(cfg, srv, Home(cfg, log[i].key));
        place'[i].batch < s.Ver(log[i].thread.client) ==> i in s.RowAt(log[i].key).ids
    {
      assert cfg.HasServer(cfg.home(log[i].key));
    }
  }

  lemma PackTiming(cfg: Config, s: State, c: nat, p: nat)
    requires Timing(cfg, s) && LogOk(cfg, s.log, s.place) && MayPack(cfg, s, c, p)
    ensures Timing(cfg, DoPack(cfg, s, c, p))
  {
    hide Bgs, Packed, PackedBg, DoPack, Clocks, Flushes, Coverage, InTime, Network, LogOk;
    PackState(cfg, s, c, p);
    var s' := DoPack(cfg, s, c, p);
    var b := s'.bg[(c, p)];
    PackBgs(cfg, s.posted, s.bg, c, p, b);
    PackCoverage(cfg, s, s'.place, c, p, b);
    PackInTime(cfg, s, s'.place, c, p, b);
    PackNetwork(cfg, s.bg, s.up, s.srv, c, p, b);
  }

  lemma PackBgs(cfg: Config, posted: map<(nat, nat), nat>, bg: map<(nat, nat), Bg>, c: nat, p: nat, b: Bg)
    requires Bgs(cfg, posted, bg) && cfg.HasBg(c, p) && PackedBg(BgOf(bg, c, p), b)
    ensures Bgs(cfg, posted, bg[(c, p) := b])
  {
    PackFine(cfg, Posted(posted, c, p), BgOf(bg, c, p), b, p);
    hide BgFine;
    PcBgs(cfg, posted, bg, c, p, b);
  }

  lemma PackFine(cfg: Config, posted: nat, b: Bg, b': Bg, p: nat)
    requires BgFine(cfg, posted, b, p) && PackedBg(b, b')
    ensures BgFine(cfg, posted, b', p)
  {
    var n := |b.saved|;
    assert forall j :: 0 <= j <= n ==> b'.hist[j] == b.hist[j];
    assert b.hist[n] <= b'.hist[n + 1] <= b.hist[n] + 1;
    forall j, k | 0 <= j <= k < |b'.hist| ensures b'.hist[j] <= b'.hist[k] {
      if k == n + 1 && j <= n {
        assert b.hist[j] <= b.hist[n];
      }
    }
    forall j | 0 <= j < |b'.saved| ensures b'.hist[j + 1] <= b'.hist[j] + 1 {
      if j < n {
        assert b.hist[j + 1] <= b.hist[j] + 1;
      }
    }
  }

  lemma PackCoverage(cfg: Config, s: State, place': seq<Place>, c: nat, p: nat, b: Bg)
    requires |place'| == |s.place| == |s.log|
    requires PackedBg(BgOf(s.bg, c, p), b) && BgOf(s.bg, c, p).pc.taken == {}
    requires Packed(cfg, s.log, s.place, place', c, p, |BgOf(s.bg, c, p).saved|)
    requires Coverage(cfg, s.log, s.place, s.ticks, s.tIndex, s.sIndex, s.bg)
    ensures Coverage(cfg, s.log, place', s.ticks, s.tIndex, s.sIndex, s.bg[(c, p) := b])
  {
    BgSet(s.bg, c, p, b);
    forall i | 0 <= i < |place'| && place'[i] == InTable
      ensures Covered(cfg, s.log[i], s.ticks, s.tIndex, s.sIndex, s.bg[(c, p) := b])
    {
      assert Covered(cfg, s.log[i], s.ticks, s.tIndex, s.sIndex, s.bg);
    }
  }

  /** What is still in the thread oplogs or the table oplog comes after the clock message that this batch carries. */
  lemma PackInTime(cfg: Config, s: State, place': seq<Place>, c: nat, p: nat, b: Bg)
    requires |place'| == |s.place| && LogOk(cfg, s.log, s.place) && MayPack(cfg, s, c, p)
    requires Clocks(cfg, s.clock, s.pc, s.ticks, s.posted) && Bgs(cfg, s.posted, s.bg)
    requires Coverage(cfg, s.log, s.place, s.ticks, s.tIndex, s.sIndex, s.bg)
    requires InTime(cfg, s.log, s.place, s.bg) && PackedBg(BgOf(s.bg, c, p), b)
    requires Packed(cfg, s.log, s.place, place', c, p, |BgOf(s.bg, c, p).saved|)
    ensures InTime(cfg, s.log, place', s.bg[(c, p) := b])
  {
    var was, bg' := BgOf(s.bg, c, p), s.bg[(c, p) := b];
    assert BgFine(cfg, Posted(s.posted, c, p), was, p);
    BgSet(s.bg, c, p, b);
    hide Bgs;
    forall i | 0 <= i < |s.place|
      ensures BgFor(cfg, bg', s.log[i]).hist != [] && InTimeAt(place'[i], s.log[i], BgFor(cfg, bg', s.log[i]))
    {
      var u := s.log[i];
      assert InTimeAt(s.place[i], u, BgFor(cfg, s.bg, u));
      if (u.thread.client, Chan(cfg, u.key)) == (c, p) {
        assert PostedBy(cfg, s.ticks, s.posted, u.thread);
        PackedInTime(cfg, s.place[i], place'[i], u, was, b, Clock(s.ticks, u.thread), Posted(s.posted, c, p));
      }
    }
  }

  lemma PackedInTime(cfg: Config, pl: Place, pl': Place, u: Upd, b: Bg, b': Bg, ticks: nat, posted: nat)
    requires PackedBg(b, b') && InTimeAt(pl, u, b)
    requires b.pc.taken == {} && b.pc.table == cfg.tables && u.key.table < cfg.tables
    requires b.pc.isClock ==> b.hist[|b.saved|] < posted
    requires posted <= ticks && (pl == InThread ==> ticks <= u.clock)
    requires pl' == if pl == InBg then Sent(|b.saved|) else pl
    ensures InTimeAt(pl', u, b')
  {
    if pl.Sent? {
      assert b'.hist[pl.batch] == b.hist[pl.batch];
    }
  }

  lemma {:induction false} UpOkGrow(cfg: Config, saved: seq<map<Key, Cell>>, hist: seq<nat>, v: Srv, q: seq<Up>,
                                    ver: nat, upto: nat, batch: map<Key, Cell>, h: nat)
    requires UpOk(cfg, saved, hist, v, q, ver, upto)
    ensures UpOk(cfg, saved + [batch], hist + [h], v, q, ver, upto)
    decreases |q|
  {
    if q != [] {
      match q[0]
      case Ask(_, _) => UpOkGrow(cfg, saved, hist, v, q[1..], ver, upto, batch, h);
      case Batch(_, _, _, _) => UpOkGrow(cfg, saved, hist, v, q[1..], ver + 1, upto, batch, h);
    }
  }

  lemma PackNetwork(cfg: Config, bg: map<(nat, nat), Bg>, up: map<(nat, Srv), seq<Up>>, srv: map<Srv, Server>,
                    c: nat, p: nat, b: Bg)
    requires Network(cfg, bg, up, srv) && PackedBg(BgOf(bg, c, p), b)
    ensures Network(cfg, bg[(c, p) := b], up, srv)
  {
    var bg' := bg[(c, p) := b];
    BgSet(bg, c, p, b);
    hide UpOk;
    forall d: nat, v | d < |cfg.threads| && cfg.HasServer(v)
      ensures Link(cfg, d, v, BgOf(bg', d, v.chan), SrvOf(cfg, srv, v), Queue(up, d, v))
    {
      assert Link(cfg, d, v, BgOf(bg, d, v.chan), SrvOf(cfg, srv, v), Queue(up, d, v));
      if (d, v.chan) == (c, p) {
        PackLink(cfg, c, v, BgOf(bg, c, p), b, SrvOf(cfg, srv, v), Queue(up, c, v));
      }
    }
  }

  lemma PackLink(cfg: Config, c: nat, v: Srv, b: Bg, b': Bg, s: Server, q: seq<Up>)
    requires Link(cfg, c, v, b, s, q) && PackedBg(b, b')
    ensures Link(cfg, c, v, b', s, q)
  {
    hide UpOk;
    UpOkGrow(cfg, b.saved, b.hist, v, q, s.Ver(c), |b.saved|, b.pc.got, b'.hist[|b.saved| + 1]);
    assert b'.hist[..|b.hist|] == b.hist;
  }

  // ---- What packing does to the copies ----

  lemma PackBase(cfg: Config, log: seq<Upd>, place: seq<Place>, place': seq<Place>, c: nat, p: nat, n: nat,
                 d: nat, key: Key, base: set<nat>, ver: nat)
    requires |place'| == |place| == |log| && Packed(cfg, log, place, place', c, p, n)
    requires BaseOk(log, place, d, key, base, ver)
    requires d == c && Chan(cfg, key) == p ==> ver <= n
    ensures BaseOk(log, place', d, key, base, ver)
  {
  }

  lemma PackDown(cfg: Config, log: seq<Upd>, place: seq<Place>, place': seq<Place>, c: nat, p: nat, n: nat,
                 d: nat, v: Srv, upto: nat, more: nat, m: Down)
    requires |place'| == |place| == |log| && Packed(cfg, log, place, place', c, p, n)
    requires DownOk(cfg, log, place, d, v, upto, m) && upto <= more && (d == c && v.chan == p ==> upto <= n)
    ensures DownOk(cfg, log, place', d, v, more, m)
  {
    hide BaseOk, CellOk, Packed;
    match m
    case Reply(key, _, ver, copy) => PackBase(cfg, log, place, place', c, p, n, d, key, copy.ids, ver);
    case Push(_, ver, rows) =>
      forall k | k in rows ensures Home(cfg, k) == v && CopyOk(log, place', d, k, ver, more, rows[k]) {
        assert CopyOk(log, place, d, k, ver, upto, rows[k]);
        PackBase(cfg, log, place, place', c, p, n, d, k, rows[k].ids, ver);
      }
  }

  lemma PackCopies(cfg: Config, log: seq<Upd>, place: seq<Place>, place': seq<Place>, bg: map<(nat, nat), Bg>,
                   down: map<(nat, Srv), seq<Down>>, c: nat, p: nat, b: Bg)
    requires |place'| == |place| == |log| && Copies(cfg, log, place, bg, down)
    requires PackedBg(BgOf(bg, c, p), b) && Packed(cfg, log, place, place', c, p, |BgOf(bg, c, p).saved|)
    ensures Copies(cfg, log, place', bg[(c, p) := b], down)
  {
    hide DownOk, Packed;
    var bg' := bg[(c, p) := b];
    BgSet(bg, c, p, b);
    forall d: nat, v, n | d < |cfg.threads| && cfg.HasServer(v) && 0 <= n < |Queue(down, d, v)|
      ensures DownOk(cfg, log, place', d, v, |BgOf(bg', d, v.chan).saved|, Queue(down, d, v)[n])
    {
      PackDown(cfg, log, place, place', c, p, |BgOf(bg, c, p).saved|, d, v, |BgOf(bg, d, v.chan).saved|,
               |BgOf(bg', d, v.chan).saved|, Queue(down, d, v)[n]);
    }
  }

  lemma PackPRow(cfg: Config, log: seq<Upd>, place: seq<Place>, place': seq<Place>, c: nat, p: nat, n: nat,
                 d: nat, key: Key, upto: nat, more: nat, r: PRow)
    requires |place'| == |place| == |log| && Packed(cfg, log, place, place', c, p, n)
    requires PRowOk(log, place, d, key, upto, r) && upto <= more && (d == c && Chan(cfg, key) == p ==> upto <= n)
    ensures PRowOk(log, place', d, key, more, r)
  {
    PackBase(cfg, log, place, place', c, p, n, d, key, r.base, r.ver);
    hide CellOk, BaseOk;
    forall i: nat | i in r.cell.ids
      ensures i < |place'| && (i in r.base || (log[i].key == key && log[i].thread.client == d && Left(place'[i])))
    {
      assert i < |place|;
    }
  }

  lemma PackPRows(cfg: Config, log: seq<Upd>, place: seq<Place>, place': seq<Place>, bg: map<(nat, nat), Bg>,
                  pRow: map<(nat, Key), PRow>, c: nat, p: nat, b: Bg)
    requires |place'| == |place| == |log| && PRows(cfg, log, place, bg, pRow)
    requires PackedBg(BgOf(bg, c, p), b) && Packed(cfg, log, place, place', c, p, |BgOf(bg, c, p).saved|)
    ensures PRows(cfg, log, place', bg[(c, p) := b], pRow)
  {
    hide PRowOk, Packed;
    var bg' := bg[(c, p) := b];
    BgSet(bg, c, p, b);
    forall w | w in pRow
      ensures w.0 < |cfg.threads|
      ensures PRowOk(log, place', w.0, w.1, |BgOf(bg', w.0, Chan(cfg, w.1)).saved|, pRow[w])
    {
      PackPRow(cfg, log, place, place', c, p, |BgOf(bg, c, p).saved|, w.0, w.1,
               |BgOf(bg, w.0, Chan(cfg, w.1)).saved|, |BgOf(bg', w.0, Chan(cfg, w.1)).saved|, pRow[w]);
    }
  }

  lemma PackCaches(cfg: Config, s: State, c: nat, p: nat)
    requires Caches(cfg, s) && Bgs(cfg, s.posted, s.bg) && MayPack(cfg, s, c, p)
    ensures Caches(cfg, DoPack(cfg, s, c, p))
  {
    hide Bgs, Packed, PackedBg, DoPack, Copies, PRows, Downstream, ServerKeys, Coherent, RowsFresh, SysClocks,
         ThreadRows,
         SameThreadPlaces, SameTablePlaces, SameGonePlaces, StillGone;
    PackState(cfg, s, c, p);
    var s' := DoPack(cfg, s, c, p);
    PackedSame(cfg, s.log, s.place, s'.place, c, p, |BgOf(s.bg, c, p).saved|);
    PackCopies(cfg, s.log, s.place, s'.place, s.bg, s.down, c, p, s'.bg[(c, p)]);
    PackPRows(cfg, s.log, s.place, s'.place, s.bg, s.pRow, c, p, s'.bg[(c, p)]);
    MoveDownstream(cfg, s.log, s.place, s'.place, s.pRow, s.seen, s.down, s.srv);
    MoveRowsFresh(cfg, s.log, s.place, s'.place, s.pRow, s.seen, s.pushClock);
    MoveThreadRows(cfg, s.log, s.place, s'.place, s.clock, s.pc, s.ticks, s.tOplog, s.tCache);
  }

  lemma PackValues(cfg: Config, s: State, c: nat, p: nat)
    requires Values(cfg, s) && Bgs(cfg, s.posted, s.bg) && MayPack(cfg, s, c, p)
    ensures Values(cfg, DoPack(cfg, s, c, p))
  {
    hide Bgs, Packed, DoPack, AllOk, ServerCells;
    PackState(cfg, s, c, p);
    var s' := DoPack(cfg, s, c, p);
    var b := s'.bg[(c, p)];
    assert BgCells(s.log, BgOf(s.bg, c, p));
    BgSet(s.bg, c, p, b);
    forall d: nat, q: nat | cfg.HasBg(d, q) ensures BgCells(s.log, BgOf(s'.bg, d, q)) {
      assert BgCells(s.log, BgOf(s.bg, d, q));
    }
  }

  // ---- BgSend ----

  lemma {:induction false} UpOkSend(cfg: Config, saved: seq<map<Key, Cell>>, hist: seq<nat>, v: Srv, q: seq<Up>,
                                    ver: nat, upto: nat, isClock: bool)
    requires UpOk(cfg, saved, hist, v, q, ver, upto) && upto < |saved| && upto + 1 < |hist|
    requires hist[upto + 1] == hist[upto] + if isClock then 1 else 0
    ensures UpOk(cfg, saved, hist, v, q + [Batch(upto, isClock, hist[upto] + 1, Restrict(cfg, saved[upto], v))],
                 ver, upto + 1)
    decreases |q|
  {
    var m := Batch(upto, isClock, hist[upto] + 1, Restrict(cfg, saved[upto], v));
    if q == [] {
      assert [m][1..] == [];
    } else {
      assert (q + [m])[1..] == q[1..] + [m];
      UpOkSend(cfg, saved, hist, v, q[1..], if q[0].Batch? then ver + 1 else ver, upto, isClock);
    }
  }

  lemma {:induction false} UpOkAsk(cfg: Config, saved: seq<map<Key, Cell>>, hist: seq<nat>, v: Srv, q: seq<Up>,
                                   ver: nat, upto: nat, key: Key, asked: int)
    requires UpOk(cfg, saved, hist, v, q, ver, upto) && Home(cfg, key) == v
    ensures UpOk(cfg, saved, hist, v, q + [Ask(key, asked)], ver, upto)
    decreases |q|
  {
    var m := Ask(key, asked);
    if q == [] {
      assert [m][1..] == [];
    } else {
      assert (q + [m])[1..] == q[1..] + [m];
      UpOkAsk(cfg, saved, hist, v, q[1..], if q[0].Batch? then ver + 1 else ver, upto, key, asked);
    }
  }

  /** The rest of the state only sees the worker's batches. */
  lemma SendRest(cfg: Config, s: State, c: nat, p: nat, pc: BgPc, up: map<(nat, Srv), seq<Up>>)
    requires Inv(cfg, s) && BgOf(s.bg, c, p).pc.Sending? && !pc.Drain?
    ensures var s' := s.(bg := s.bg[(c, p) := BgOf(s.bg, c, p).(pc := pc)], up := up);
      Where(cfg, s') && Caches(cfg, s') && Values(cfg, s')
  {
    BgWhere(cfg, s, c, p, pc);
    PcCaches(cfg, s, c, p, pc);
    PcCells(cfg, s, c, p, pc);
    UpRest(cfg, s.(bg := s.bg[(c, p) := BgOf(s.bg, c, p).(pc := pc)]), up);
    hide Where, Caches, Values, Timing;
  }

  lemma UpRest(cfg: Config, s: State, up: map<(nat, Srv), seq<Up>>)
    requires Where(cfg, s) && Caches(cfg, s) && Values(cfg, s)
    ensures Where(cfg, s.(up := up)) && Caches(cfg, s.(up := up)) && Values(cfg, s.(up := up))
  {
    hide LogOk, ThreadOplogs, TableOplogs, Cancelled, Gathered, Batches, ServerRows, Copies, PRows, Downstream,
         ServerKeys, Coherent,
         RowsFresh, SysClocks, ThreadRows, CellsOk, ServerCells;
  }

  lemma SendState(cfg: Config, s: State, c: nat, p: nat)
    requires MaySend(cfg, s, c, p)
    ensures var b, s' := BgOf(s.bg, c, p), DoSend(cfg, s, c, p);
      s' == s.(bg := s.bg[(c, p) := b.(pc := b.pc.(next := b.pc.next + 1))], up := s'.up)
  {
    hide Restrict;
  }

  lemma SendKeeps(cfg: Config, s: State, c: nat, p: nat)
    requires Inv(cfg, s) && MaySend(cfg, s, c, p)
    ensures Inv(cfg, DoSend(cfg, s, c, p))
  {
    hide Where, Timing, Caches, Values, DoSend, BgOf;
    SendTiming(cfg, s, c, p);
    SendState(cfg, s, c, p);
    var b := BgOf(s.bg, c, p);
    SendRest(cfg, s, c, p, b.pc.(next := b.pc.next + 1), DoSend(cfg, s, c, p).up);
  }

  lemma SendTiming(cfg: Config, s: State, c: nat, p: nat)
    requires Timing(cfg, s) && MaySend(cfg, s, c, p)
    ensures Timing(cfg, DoSend(cfg, s, c, p))
  {
    hide Clocks, Bgs, Flushes, Coverage, InTime, Network;
    var b := BgOf(s.bg, c, p);
    var b' := b.(pc := b.pc.(next := b.pc.next + 1));
    SendBgs(cfg, s.posted, s.bg, c, p, b');
    SendCoverage(cfg, s, c, p, b');
    StartInTime(cfg, s.log, s.place, s.bg, c, p, b');
    SendNetwork(cfg, s, c, p);
  }

  lemma SendBgs(cfg: Config, posted: map<(nat, nat), nat>, bg: map<(nat, nat), Bg>, c: nat, p: nat, b: Bg)
    requires Bgs(cfg, posted, bg) && cfg.HasBg(c, p) && BgOf(bg, c, p).pc.Sending?
    requires b == BgOf(bg, c, p).(pc := b.pc)
    requires b.pc == Idle || (b.pc.Sending? && b.pc.isClock == BgOf(bg, c, p).pc.isClock && b.pc.next <= |cfg.threads|)
    ensures Bgs(cfg, posted, bg[(c, p) := b])
  {
    assert BgFine(cfg, Posted(posted, c, p), BgOf(bg, c, p), p);
    assert BgFine(cfg, Posted(posted, c, p), b, p);
    hide BgFine;
    PcBgs(cfg, posted, bg, c, p, b);
  }

  lemma SendCoverage(cfg: Config, s: State, c: nat, p: nat, b: Bg)
    requires |s.place| == |s.log| && BgOf(s.bg, c, p).pc.Sending?
    requires Coverage(cfg, s.log, s.place, s.ticks, s.tIndex, s.sIndex, s.bg)
    ensures Coverage(cfg, s.log, s.place, s.ticks, s.tIndex, s.sIndex, s.bg[(c, p) := b])
  {
    BgSet(s.bg, c, p, b);
    forall i | 0 <= i < |s.place| && s.place[i] == InTable
      ensures Covered(cfg, s.log[i], s.ticks, s.tIndex, s.sIndex, s.bg[(c, p) := b])
    {
      assert Covered(cfg, s.log[i], s.ticks, s.tIndex, s.sIndex, s.bg);
    }
  }

  lemma SendFacts(cfg: Config, posted: map<(nat, nat), nat>, bg: map<(nat, nat), Bg>, c: nat, p: nat)
    requires Bgs(cfg, posted, bg) && cfg.HasBg(c, p) && BgOf(bg, c, p).pc.Sending?
    ensures var b := BgOf(bg, c, p);
      && b.saved != [] && |b.hist| == |b.saved| + 1
      && b.hist[|b.saved|] == b.hist[|b.saved| - 1] + (if b.pc.isClock then 1 else 0)
  {
    assert BgFine(cfg, Posted(posted, c, p), BgOf(bg, c, p), p);
  }

  lemma SendNetwork(cfg: Config, s: State, c: nat, p: nat)
    requires Network(cfg, s.bg, s.up, s.srv) && Bgs(cfg, s.posted, s.bg) && MaySend(cfg, s, c, p)
    ensures Network(cfg, DoSend(cfg, s, c, p).bg, DoSend(cfg, s, c, p).up, s.srv)
  {
    hide Network, Bgs, Restrict, BgOf, Queue;
    SendFacts(cfg, s.posted, s.bg, c, p);
    var b := BgOf(s.bg, c, p);
    var k: nat, v := |b.saved| - 1, Srv(b.pc.next, p);
    var s' := DoSend(cfg, s, c, p);
    assert s'.up
        == s.up[(c, v) := Queue(s.up, c, v) + [Batch(k, b.pc.isClock, b.hist[k] + 1, Restrict(cfg, b.saved[k], v))]];
    assert s'.bg == s.bg[(c, p) := b.(pc := b.pc.(next := b.pc.next + 1))];
    SendLinks(cfg, s.bg, s.up, s.srv, c, v, b, k, s'.bg, s'.up);
  }

  lemma SendLinks(cfg: Config, bg: map<(nat, nat), Bg>, up: map<(nat, Srv), seq<Up>>, srv: map<Srv, Server>,
                  c: nat, to: Srv, b: Bg, k: nat, bg': map<(nat, nat), Bg>, up': map<(nat, Srv), seq<Up>>)
    requires Network(cfg, bg, up, srv) && b == BgOf(bg, c, to.chan)
    requires b.pc.Sending? && b.pc.next == to.host && k == |b.saved| - 1 && |b.hist| == |b.saved| + 1
    requires b.hist[k + 1] == b.hist[k] + (if b.pc.isClock then 1 else 0)
    requires bg' == bg[(c, to.chan) := b.(pc := b.pc.(next := b.pc.next + 1))]
    requires up' == up[(c, to) := Queue(up, c, to)
                                  + [Batch(k, b.pc.isClock, b.hist[k] + 1, Restrict(cfg, b.saved[k], to))]]
    ensures Network(cfg, bg', up', srv)
  {
    hide Link, Restrict, BgOf, Queue, SrvOf;
    BgSet(bg, c, to.chan, b.(pc := b.pc.(next := b.pc.next + 1)));
    QueueSet(up, c, to, up'[(c, to)]);
    forall d: nat, v | d < |cfg.threads| && cfg.HasServer(v)
      ensures Link(cfg, d, v, BgOf(bg', d, v.chan), SrvOf(cfg, srv, v), Queue(up', d, v))
    {
      assert Link(cfg, d, v, BgOf(bg, d, v.chan), SrvOf(cfg, srv, v), Queue(up, d, v));
      if (d, v.chan) == (c, to.chan) {
        SendLink(cfg, c, v, b, SrvOf(cfg, srv, v), Queue(up, c, v));
      }
    }
  }

  /** One server gets the batch; for the others it is still to be sent, or already was. */
  lemma SendLink(cfg: Config, c: nat, v: Srv, b: Bg, s: Server, q: seq<Up>)
    requires Link(cfg, c, v, b, s, q) && b.pc.Sending? && b.saved != [] && |b.hist| == |b.saved| + 1
    requires b.hist[|b.saved|] == b.hist[|b.saved| - 1] + (if b.pc.isClock then 1 else 0)
    ensures var k := |b.saved| - 1;
      var m := Batch(k, b.pc.isClock, b.hist[k] + 1, Restrict(cfg, b.saved[k], v));
      Link(cfg, c, v, b.(pc := b.pc.(next := b.pc.next + 1)), s, if v.host == b.pc.next then q + [m] else q)
  {
    hide UpOk, Restrict;
    if v.host == b.pc.next {
      UpOkSend(cfg, b.saved, b.hist, v, q, s.Ver(c), |b.saved| - 1, b.pc.isClock);
    }
  }

  // ---- BgFinish ----

  lemma FinishKeeps(cfg: Config, s: State, c: nat, p: nat)
    requires Inv(cfg, s) && MayFinish(cfg, s, c, p)
    ensures Inv(cfg, DoFinish(s, c, p))
  {
    SendRest(cfg, s, c, p, Idle, s.up);
    FinishTiming(cfg, s, c, p);
    hide Where, Timing, Caches, Values;
  }

  lemma FinishTiming(cfg: Config, s: State, c: nat, p: nat)
    requires Timing(cfg, s) && MayFinish(cfg, s, c, p)
    ensures Timing(cfg, DoFinish(s, c, p))
  {
    hide Clocks, Bgs, Flushes, Coverage, InTime, Network, SameSaved, SentUpTo;
    var b' := BgOf(s.bg, c, p).(pc := Idle);
    SendBgs(cfg, s.posted, s.bg, c, p, b');
    SendCoverage(cfg, s, c, p, b');
    StartInTime(cfg, s.log, s.place, s.bg, c, p, b');
    PcSaved(s.bg, c, p, Idle);
    PcSentUpTo(cfg, s.bg, c, p, Idle);
    SameNetwork(cfg, s.bg, s.bg[(c, p) := b'], s.up, s.srv);
  }

  // ---- BgRequest ----

  lemma RequestKeeps(cfg: Config, s: State, c: nat, key: Key, asked: int)
    requires Inv(cfg, s) && c < |cfg.threads|
    ensures Inv(cfg, DoRequest(cfg, s, c, key, asked))
  {
    UpRest(cfg, s, DoRequest(cfg, s, c, key, asked).up);
    RequestNetwork(cfg, s, c, key, asked);
    hide Where, Caches, Values, Clocks, Bgs, Flushes, Coverage, InTime, Network;
  }

  lemma RequestNetwork(cfg: Config, s: State, c: nat, key: Key, asked: int)
    requires Network(cfg, s.bg, s.up, s.srv)
    ensures Network(cfg, s.bg, DoRequest(cfg, s, c, key, asked).up, s.srv)
  {
    var to := Home(cfg, key);
    var q := Queue(s.up, c, to) + [Ask(key, asked)];
    QueueSet(s.up, c, to, q);
    var up' := s.up[(c, to) := q];
    hide UpOk;
    forall d: nat, v | d < |cfg.threads| && cfg.HasServer(v)
      ensures Link(cfg, d, v, BgOf(s.bg, d, v.chan), SrvOf(cfg, s.srv, v), Queue(up', d, v))
    {
      assert Link(cfg, d, v, BgOf(s.bg, d, v.chan), SrvOf(cfg, s.srv, v), Queue(s.up, d, v));
      if (d, v) == (c, to) {
        var b := BgOf(s.bg, c, v.chan);
        UpOkAsk(cfg, b.saved, b.hist, v, Queue(s.up, c, v), SrvOf(cfg, s.srv, v).Ver(c), SentUpTo(b, v), key, asked);
      }
    }
  }
}
