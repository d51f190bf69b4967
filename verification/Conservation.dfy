/** Nothing is lost and nothing is counted twice: whatever the interleaving, the numbers on the way plus the number in
    the server row are the sum of all the deltas ever passed to Inc. */
module Conservation {
  import opened Rows
  import opened ServerSpec
  import opened Protocol
  import opened Invariant
  import DeliverSteps
  import Safety

  /** The sum, in one column, of all the deltas that were ever added to a row. */
  function Made(log: seq<Upd>, key: Key, col: int): int {
    if log == [] then 0
    else
      var u := log[|log| - 1];
      Made(log[..|log| - 1], key, col) + if u.key == key then Val(u.delta, col) else 0
  }

  function ThreadSum(tOplog: map<(Thread, Key), Cell>, c: nat, n: nat, key: Key, col: int): int {
    if n == 0 then 0
    else ThreadSum(tOplog, c, n - 1, key, col) + Val(Oplog(tOplog, (Thread(c, n - 1), key)).vals, col)
  }

  /** What the batches from..upto add to a row. */
  function BatchSum(saved: seq<map<Key, Cell>>, key: Key, from: nat, upto: nat, col: int): int
    requires upto <= |saved|
    decreases upto
  {
    if upto <= from then 0
    else BatchSum(saved, key, from, upto - 1, col) + Val(Oplog(saved[upto - 1], key).vals, col)
  }

  function Got(b: Bg, key: Key): Cell {
    if b.pc.Drain? then Oplog(b.pc.got, key) else ZERO
  }

  /** What client c has on the way to a row: in thread oplogs, in the table oplog, in the batch being gathered, and in
      batches that the server has not applied. */
  function OnTheWay(cfg: Config, s: State, c: nat, key: Key, col: int): int
    requires c < |cfg.threads|
  {
    var b := BgOf(s.bg, c, Chan(cfg, key));
    ThreadSum(s.tOplog, c, cfg.threads[c], key, col)
    + Val(Oplog(s.pOplog, (c, key)).vals, col)
    + Val(Got(b, key).vals, col)
    + BatchSum(b.saved, key, SrvOf(cfg, s.srv, Home(cfg, key)).Ver(c), |b.saved|, col)
  }

  function AllOnTheWay(cfg: Config, s: State, n: nat, key: Key, col: int): int
    requires n <= |cfg.threads|
  {
    if n == 0 then 0 else AllOnTheWay(cfg, s, n - 1, key, col) + OnTheWay(cfg, s, n - 1, key, col)
  }

  // ---- Sums over the updates at some places ----

  ghost function At(log: seq<Upd>, place: seq<Place>, key: Key, P: (Upd, Place) -> bool): set<nat>
    requires |place| == |log|
  {
    set i: nat | i < |log| && log[i].key == key && P(log[i], place[i])
  }

  lemma SumSplit(log: seq<Upd>, place: seq<Place>, key: Key, P: (Upd, Place) -> bool, Q: (Upd, Place) -> bool,
                 R: (Upd, Place) -> bool, col: int)
    requires |place| == |log|
    requires forall u, p :: P(u, p) <==> Q(u, p) || R(u, p)
    requires forall u, p :: !(Q(u, p) && R(u, p))
    ensures Sum(log, At(log, place, key, P), col)
         == Sum(log, At(log, place, key, Q), col) + Sum(log, At(log, place, key, R), col)
  {
    assert At(log, place, key, P) == At(log, place, key, Q) + At(log, place, key, R);
    SumUnion(log, At(log, place, key, Q), At(log, place, key, R), col);
  }

  lemma SumCell(log: seq<Upd>, place: seq<Place>, key: Key, P: (Upd, Place) -> bool, cell: Cell, col: int)
    requires |place| == |log| && CellOk(log, cell)
    requires forall i: nat {:trigger i in cell.ids} ::
               i in cell.ids <==> i < |log| && log[i].key == key && P(log[i], place[i])
    ensures Val(cell.vals, col) == Sum(log, At(log, place, key, P), col)
  {
    assert At(log, place, key, P) == cell.ids;
  }

  lemma {:induction false} MadeIsSum(log: seq<Upd>, key: Key, ids: set<nat>, col: int)
    requires forall i: nat {:trigger i in ids} :: i < |log| ==> (i in ids <==> log[i].key == key)
    ensures Made(log, key, col) == Sum(log, ids, col)
  {
    if log != [] {
      var n := |log| - 1;
      forall i: nat | i < n ensures i in ids <==> log[..n][i].key == key {
      }
      MadeIsSum(log[..n], key, ids, col);
      assert n in ids <==> log[n].key == key;
    }
  }

  // ---- One client ----

  lemma {:induction false} ThreadSumIs(log: seq<Upd>, place: seq<Place>, tOplog: map<(Thread, Key), Cell>, c: nat,
                                       n: nat, key: Key, col: int)
    requires |place| == |log| && ThreadOplogs(log, place, tOplog) && AllOk(log, tOplog)
    ensures ThreadSum(tOplog, c, n, key, col)
         == Sum(log, At(log, place, key, (u: Upd, p) => p == InThread && u.thread.client == c && u.thread.idx < n), col)
  {
    var P := (u: Upd, p) => p == InThread && u.thread.client == c && u.thread.idx < n;
    if n == 0 {
      assert At(log, place, key, P) == {};
      SumOutside(log, {}, col);
    } else {
      ThreadSumIs(log, place, tOplog, c, n - 1, key, col);
      var Q := (u: Upd, p) => p == InThread && u.thread.client == c && u.thread.idx < n - 1;
      var R := (u: Upd, p) => p == InThread && u.thread.client == c && u.thread.idx == n - 1;
      var cell := Oplog(tOplog, (Thread(c, n - 1), key));
      OplogOk(log, tOplog, (Thread(c, n - 1), key));
      hide CellOk;
      SumCell(log, place, key, R, cell, col);
      SumSplit(log, place, key, P, Q, R, col);
    }
  }

  lemma {:induction false} BatchSumIs(log: seq<Upd>, place: seq<Place>, saved: seq<map<Key, Cell>>, c: nat, key: Key,
                                      from: nat, upto: nat, col: int)
    requires |place| == |log| && upto <= |saved| && DeliverSteps.OwnBatches(log, place, saved, c, key)
    ensures BatchSum(saved, key, from, upto, col)
         == Sum(log, At(log, place, key, (u: Upd, p: Place) =>
                  p.Sent? && from <= p.batch < upto && u.thread.client == c), col)
    decreases upto
  {
    var P := (u: Upd, p: Place) => p.Sent? && from <= p.batch < upto && u.thread.client == c;
    if upto <= from {
      assert At(log, place, key, P) == {};
      SumOutside(log, {}, col);
    } else {
      BatchSumIs(log, place, saved, c, key, from, upto - 1, col);
      var Q := (u: Upd, p: Place) => p.Sent? && from <= p.batch < upto - 1 && u.thread.client == c;
      var R := (u: Upd, p: Place) => p == Sent(upto - 1) && u.thread.client == c;
      var cell := Oplog(saved[upto - 1], key);
      assert CellOk(log, cell);
      hide CellOk;
      SumCell(log, place, key, R, cell, col);
      SumSplit(log, place, key, P, Q, R, col);
    }
  }

  function Waiting(c: nat, ver: nat): (Upd, Place) -> bool {
    (u: Upd, p: Place) => u.thread.client == c && p != Gone && (p.Sent? ==> ver <= p.batch)
  }

  /** The numbers a client has on the way are the sum of its updates that the server has not applied. */
  lemma OnTheWayIs(cfg: Config, s: State, c: nat, key: Key, col: int)
    requires Where(cfg, s) && Values(cfg, s) && c < |cfg.threads|
    ensures OnTheWay(cfg, s, c, key, col)
         == Sum(s.log, At(s.log, s.place, key, Waiting(c, SrvOf(cfg, s.srv, Home(cfg, key)).Ver(c))), col)
  {
    hide TableOplogs, ThreadOplogs, Gathered, Cancelled, Batches, ServerRows, AllOk, AllBgCells, ServerCells, At, Sum,
         ThreadSum, BatchSum, Got, Waiting, DeliverSteps.OwnBatches;
    var b, ver := BgOf(s.bg, c, Chan(cfg, key)), SrvOf(cfg, s.srv, Home(cfg, key)).Ver(c);
    var n := cfg.threads[c];
    var P1 := (u: Upd, p) => p == InThread && u.thread.client == c && u.thread.idx < n;
    var P2 := (u: Upd, p) => p == InTable && u.thread.client == c;
    var P3 := (u: Upd, p) => p == InBg && u.thread.client == c;
    var P4 := (u: Upd, p: Place) => p.Sent? && ver <= p.batch < |b.saved| && u.thread.client == c;
    ThreadSumIs(s.log, s.place, s.tOplog, c, n, key, col);
    TableIs(s.log, s.place, s.pOplog, c, key, col);
    GotIs(cfg, s.log, s.place, s.bg, c, key, col);
    DeliverSteps.OwnBatchesOf(cfg, s.log, s.place, s.bg, c, key);
    BatchSumIs(s.log, s.place, b.saved, c, key, ver, |b.saved|, col);
    var P := (u: Upd, p) => (P1(u, p) || P2(u, p)) || (P3(u, p) || P4(u, p));
    FourParts(s.log, s.place, key, P1, P2, P3, P4, P, col);
    AtBounds(cfg, s.log, s.place, key, c, ver, b.saved, P);
  }

  lemma FourParts(log: seq<Upd>, place: seq<Place>, key: Key, P1: (Upd, Place) -> bool, P2: (Upd, Place) -> bool,
                  P3: (Upd, Place) -> bool, P4: (Upd, Place) -> bool, P: (Upd, Place) -> bool, col: int)
    requires |place| == |log|
    requires forall u, p :: P(u, p) <==> (P1(u, p) || P2(u, p)) || (P3(u, p) || P4(u, p))
    requires forall u, p :: !(P1(u, p) && P2(u, p)) && !(P3(u, p) && P4(u, p))
    requires forall u, p :: !((P1(u, p) || P2(u, p)) && (P3(u, p) || P4(u, p)))
    ensures Sum(log, At(log, place, key, P), col)
         == Sum(log, At(log, place, key, P1), col) + Sum(log, At(log, place, key, P2), col)
          + Sum(log, At(log, place, key, P3), col) + Sum(log, At(log, place, key, P4), col)
  {
    var P12 := (u: Upd, p) => P1(u, p) || P2(u, p);
    var P34 := (u: Upd, p) => P3(u, p) || P4(u, p);
    SumSplit(log, place, key, P12, P1, P2, col);
    SumSplit(log, place, key, P34, P3, P4, col);
    SumSplit(log, place, key, P, P12, P34, col);
  }

  /** Every thread is one of the client's, and every batch is one of the worker's. */
  lemma AtBounds(cfg: Config, log: seq<Upd>, place: seq<Place>, key: Key, c: nat, ver: nat,
                 saved: seq<map<Key, Cell>>, P: (Upd, Place) -> bool)
    requires LogOk(cfg, log, place) && c < |cfg.threads| && DeliverSteps.OwnBatches(log, place, saved, c, key)
    requires forall u: Upd, p: Place :: P(u, p) <==>
               u.thread.client == c &&
               ((p == InThread && u.thread.idx < cfg.threads[c]) || p == InTable || p == InBg
                || (p.Sent? && ver <= p.batch < |saved|))
    ensures At(log, place, key, P) == At(log, place, key, Waiting(c, ver))
  {
    forall i: nat | i < |log| && log[i].key == key
      ensures P(log[i], place[i]) <==> Waiting(c, ver)(log[i], place[i])
    {
      assert cfg.HasThread(log[i].thread);
    }
  }

  lemma TableIs(log: seq<Upd>, place: seq<Place>, pOplog: map<(nat, Key), Cell>, c: nat, key: Key, col: int)
    requires |place| == |log| && TableOplogs(log, place, pOplog) && AllOk(log, pOplog)
    ensures Val(Oplog(pOplog, (c, key)).vals, col)
         == Sum(log, At(log, place, key, (u: Upd, p) => p == InTable && u.thread.client == c), col)
  {
    OplogOk(log, pOplog, (c, key));
    hide CellOk;
    SumCell(log, place, key, (u: Upd, p) => p == InTable && u.thread.client == c, Oplog(pOplog, (c, key)), col);
  }

  lemma GotIs(cfg: Config, log: seq<Upd>, place: seq<Place>, bg: map<(nat, nat), Bg>, c: nat, key: Key, col: int)
    requires |place| == |log| && Gathered(cfg, log, place, bg) && AllBgCells(cfg, log, bg) && c < |cfg.threads|
    ensures Val(Got(BgOf(bg, c, Chan(cfg, key)), key).vals, col)
         == Sum(log, At(log, place, key, (u: Upd, p) => p == InBg && u.thread.client == c), col)
  {
    assert cfg.HasServer(cfg.home(key));
    var b := BgOf(bg, c, Chan(cfg, key));
    assert BgCells(log, b);
    var cell := Got(b, key);
    assert CellOk(log, cell) by {
      ZeroOk(log);
      if b.pc.Drain? { OplogOk(log, b.pc.got, key); }
    }
    hide CellOk;
    forall i: nat ensures i in cell.ids <==>
        i < |log| && log[i].key == key && place[i] == InBg && log[i].thread.client == c
    {
      if i in cell.ids {
        assert i in BgOf(bg, c, Chan(cfg, key)).pc.got[key].ids;
      }
    }
    SumCell(log, place, key, (u: Upd, p) => p == InBg && u.thread.client == c, cell, col);
  }

  // ---- All clients ----

  function Below(cfg: Config, srv: map<Srv, Server>, key: Key, n: nat): (Upd, Place) -> bool {
    (u: Upd, p: Place) =>
      u.thread.client < n && p != Gone
      && (p.Sent? ==> SrvOf(cfg, srv, Home(cfg, key)).Ver(u.thread.client) <= p.batch)
  }

  lemma {:induction false} AllOnTheWayIs(cfg: Config, s: State, n: nat, key: Key, col: int)
    requires Where(cfg, s) && Values(cfg, s) && n <= |cfg.threads|
    ensures AllOnTheWay(cfg, s, n, key, col) == Sum(s.log, At(s.log, s.place, key, Below(cfg, s.srv, key, n)), col)
  {
    hide TableOplogs, ThreadOplogs, Gathered, Cancelled, Batches, ServerRows, Values;
    if n == 0 {
      assert At(s.log, s.place, key, Below(cfg, s.srv, key, 0)) == {};
      SumOutside(s.log, {}, col);
    } else {
      AllOnTheWayIs(cfg, s, n - 1, key, col);
      OnTheWayIs(cfg, s, n - 1, key, col);
      SumSplit(s.log, s.place, key, Below(cfg, s.srv, key, n), Below(cfg, s.srv, key, n - 1),
               Waiting(n - 1, SrvOf(cfg, s.srv, Home(cfg, key)).Ver(n - 1)), col);
    }
  }

  /** In every reachable state, for every row and column: what all clients have on the way, plus what the server row
      holds, is the sum of all the deltas ever made. */
  lemma NothingLostOrDoubled(cfg: Config, steps: seq<Step>, key: Key, col: int)
    requires Legal(cfg, steps)
    ensures var s := Run(cfg, steps);
      AllOnTheWay(cfg, s, |cfg.threads|, key, col) + Val(SrvOf(cfg, s.srv, Home(cfg, key)).RowAt(key).vals, col)
      == Made(s.log, key, col)
  {
    hide Run, Legal, Inv;
    Safety.EveryRunKeeps(cfg, steps);
    Conserved(cfg, Run(cfg, steps), key, col);
  }

  lemma Conserved(cfg: Config, s: State, key: Key, col: int)
    requires Inv(cfg, s)
    ensures AllOnTheWay(cfg, s, |cfg.threads|, key, col) + Val(SrvOf(cfg, s.srv, Home(cfg, key)).RowAt(key).vals, col)
         == Made(s.log, key, col)
  {
    hide Timing, Caches, TableOplogs, ThreadOplogs, Gathered, Batches, AllOk, AllBgCells;
    AllOnTheWayIs(cfg, s, |cfg.threads|, key, col);
    var v, n := Home(cfg, key), |cfg.threads|;
    var cell, lost := SrvOf(cfg, s.srv, v).RowAt(key), Oplog(s.gone, key);
    assert cfg.HasServer(v);
    assert CellOk(s.log, cell);
    assert CellOk(s.log, lost) by { OplogOk(s.log, s.gone, key); }
    assert Val(lost.vals, col) == 0;
    hide CellOk, AllOnTheWay;
    var Q := (u: Upd, p: Place) => p.Sent? && p.batch < SrvOf(cfg, s.srv, v).Ver(u.thread.client);
    var G := (u: Upd, p: Place) => p == Gone;
    SumCell(s.log, s.place, key, Q, cell, col);
    SumCell(s.log, s.place, key, G, lost, col);
    ClientsBelow(cfg, s.log, s.place, s.srv, key, col, Q, G);
  }

  lemma ClientsBelow(cfg: Config, log: seq<Upd>, place: seq<Place>, srv: map<Srv, Server>, key: Key, col: int,
                     Q: (Upd, Place) -> bool, G: (Upd, Place) -> bool)
    requires LogOk(cfg, log, place)
    requires forall u: Upd, p: Place ::
               Q(u, p) <==> p.Sent? && p.batch < SrvOf(cfg, srv, Home(cfg, key)).Ver(u.thread.client)
    requires forall u: Upd, p: Place :: G(u, p) <==> p == Gone
    ensures Sum(log, At(log, place, key, Below(cfg, srv, key, |cfg.threads|)), col)
          + Sum(log, At(log, place, key, Q), col) + Sum(log, At(log, place, key, G), col)
         == Made(log, key, col)
  {
    var n := |cfg.threads|;
    var B := (u: Upd, p: Place) => p != Gone
      && (p.Sent? ==> SrvOf(cfg, srv, Home(cfg, key)).Ver(u.thread.client) <= p.batch);
    forall i: nat | i < |log| && log[i].key == key
      ensures B(log[i], place[i]) <==> Below(cfg, srv, key, n)(log[i], place[i])
    {
      assert cfg.HasThread(log[i].thread);
    }
    assert At(log, place, key, B) == At(log, place, key, Below(cfg, srv, key, n));
    var BQ := (u: Upd, p: Place) => p != Gone;
    var A := (u: Upd, p: Place) => true;
    SumSplit(log, place, key, BQ, B, Q, col);
    SumSplit(log, place, key, A, BQ, G, col);
    MadeIsSum(log, key, At(log, place, key, A), col);
  }
}
