/** What a change of place keeps: each part of the invariant looks at a few places only. */
module Moves {
  import opened Rows
  import opened ServerSpec
  import opened Protocol
  import opened Invariant

  ghost predicate SameThreadPlaces(place: seq<Place>, place': seq<Place>) {
    |place'| == |place| &&
    forall i {:trigger place[i]} {:trigger place'[i]} :: 0 <= i < |place| ==>
      (place'[i] == InThread <==> place[i] == InThread)
  }

  ghost predicate SameTablePlaces(place: seq<Place>, place': seq<Place>) {
    |place'| == |place| &&
    forall i {:trigger place[i]} {:trigger place'[i]} :: 0 <= i < |place| ==>
      (place'[i] == InTable <==> place[i] == InTable)
  }

  ghost predicate SameBgPlaces(place: seq<Place>, place': seq<Place>) {
    |place'| == |place| &&
    forall i {:trigger place[i]} {:trigger place'[i]} :: 0 <= i < |place| ==> (place'[i] == InBg <==> place[i] == InBg)
  }

  ghost predicate SameGonePlaces(place: seq<Place>, place': seq<Place>) {
    |place'| == |place| &&
    forall i {:trigger place[i]} {:trigger place'[i]} :: 0 <= i < |place| ==> (place'[i] == Gone <==> place[i] == Gone)
  }

  ghost predicate SameSentPlaces(place: seq<Place>, place': seq<Place>) {
    |place'| == |place| &&
    forall i {:trigger place[i]} {:trigger place'[i]} :: 0 <= i < |place| ==>
      (place'[i].Sent? || place[i].Sent? ==> place'[i] == place[i])
  }

  ghost predicate StillGone(place: seq<Place>, place': seq<Place>) {
    |place'| == |place| &&
    forall i {:trigger place[i]} {:trigger place'[i]} :: 0 <= i < |place| ==> (place[i] == Gone ==> place'[i] == Gone)
  }

  lemma MoveThreadOplogs(log: seq<Upd>, place: seq<Place>, place': seq<Place>, tOplog: map<(Thread, Key), Cell>)
    requires |place'| == |place| == |log| && ThreadOplogs(log, place, tOplog) && SameThreadPlaces(place, place')
    ensures ThreadOplogs(log, place', tOplog)
  {
  }

  lemma MoveTableOplogs(log: seq<Upd>, place: seq<Place>, place': seq<Place>, pOplog: map<(nat, Key), Cell>)
    requires |place'| == |place| == |log| && TableOplogs(log, place, pOplog) && SameTablePlaces(place, place')
    ensures TableOplogs(log, place', pOplog)
  {
  }

  lemma MoveCancelled(log: seq<Upd>, place: seq<Place>, place': seq<Place>, gone: map<Key, Cell>)
    requires |place'| == |place| == |log| && Cancelled(log, place, gone) && SameGonePlaces(place, place')
    ensures Cancelled(log, place', gone)
  {
  }

  lemma MoveGathered(cfg: Config, log: seq<Upd>, place: seq<Place>, place': seq<Place>, bg: map<(nat, nat), Bg>)
    requires |place'| == |place| == |log| && Gathered(cfg, log, place, bg) && SameBgPlaces(place, place')
    ensures Gathered(cfg, log, place', bg)
  {
  }

  lemma MoveBatches(cfg: Config, log: seq<Upd>, place: seq<Place>, place': seq<Place>, bg: map<(nat, nat), Bg>)
    requires |place'| == |place| == |log| && Batches(cfg, log, place, bg) && SameSentPlaces(place, place')
    ensures Batches(cfg, log, place', bg)
  {
  }

  lemma MoveServerRows(cfg: Config, log: seq<Upd>, place: seq<Place>, place': seq<Place>, srv: map<Srv, Server>)
    requires |place'| == |place| == |log| && ServerRows(cfg, log, place, srv) && SameSentPlaces(place, place')
    ensures ServerRows(cfg, log, place', srv)
  {
  }

  // ---- Copies ----

  lemma MoveBase(log: seq<Upd>, place: seq<Place>, place': seq<Place>, c: nat, key: Key, base: set<nat>, ver: nat)
    requires |place'| == |place| == |log| && BaseOk(log, place, c, key, base, ver) && SameSentPlaces(place, place')
    ensures BaseOk(log, place', c, key, base, ver)
  {
  }

  lemma MoveDown(cfg: Config, log: seq<Upd>, place: seq<Place>, place': seq<Place>, c: nat, v: Srv, upto: nat, d: Down)
    requires |place'| == |place| == |log| && DownOk(cfg, log, place, c, v, upto, d) && SameSentPlaces(place, place')
    ensures DownOk(cfg, log, place', c, v, upto, d)
  {
    hide BaseOk, CellOk, SameSentPlaces;
    match d
    case Reply(key, _, ver, copy) => MoveBase(log, place, place', c, key, copy.ids, ver);
    case Push(_, ver, rows) =>
      forall k | k in rows ensures Home(cfg, k) == v && CopyOk(log, place', c, k, ver, upto, rows[k]) {
        assert CopyOk(log, place, c, k, ver, upto, rows[k]);
        MoveBase(log, place, place', c, k, rows[k].ids, ver);
      }
  }

  lemma MoveCopies(cfg: Config, log: seq<Upd>, place: seq<Place>, place': seq<Place>, bg: map<(nat, nat), Bg>,
                   down: map<(nat, Srv), seq<Down>>)
    requires |place'| == |place| == |log| && Copies(cfg, log, place, bg, down) && SameSentPlaces(place, place')
    ensures Copies(cfg, log, place', bg, down)
  {
    hide DownOk, SameSentPlaces;
    forall c: nat, v, n | c < |cfg.threads| && cfg.HasServer(v) && 0 <= n < |Queue(down, c, v)|
      ensures DownOk(cfg, log, place', c, v, |BgOf(bg, c, v.chan).saved|, Queue(down, c, v)[n])
    {
      MoveDown(cfg, log, place, place', c, v, |BgOf(bg, c, v.chan).saved|, Queue(down, c, v)[n]);
    }
  }

  /** A row is not touched by moves among the places that it counts, or among those that it does not. */
  lemma MovePRow(log: seq<Upd>, place: seq<Place>, place': seq<Place>, c: nat, key: Key, upto: nat, r: PRow)
    requires |place'| == |place| == |log| && PRowOk(log, place, c, key, upto, r) && SameSentPlaces(place, place')
    requires forall i :: 0 <= i < |place| && log[i].key == key && log[i].thread.client == c
               ==> Left(place'[i]) == Left(place[i])
    ensures PRowOk(log, place', c, key, upto, r)
  {
    MoveBase(log, place, place', c, key, r.base, r.ver);
    hide CellOk, BaseOk;
    forall i: nat | i in r.cell.ids
      ensures i < |place'| && (i in r.base || (log[i].key == key && log[i].thread.client == c && Left(place'[i])))
    {
      assert i < |place|;
    }
  }

  lemma MovePRows(cfg: Config, log: seq<Upd>, place: seq<Place>, place': seq<Place>, bg: map<(nat, nat), Bg>,
                  pRow: map<(nat, Key), PRow>)
    requires |place'| == |place| == |log| && PRows(cfg, log, place, bg, pRow) && SameSentPlaces(place, place')
    requires forall i :: 0 <= i < |place| ==> Left(place'[i]) == Left(place[i])
    ensures PRows(cfg, log, place', bg, pRow)
  {
    hide PRowOk, SameSentPlaces;
    forall w | w in pRow
      ensures w.0 < |cfg.threads|
      ensures PRowOk(log, place', w.0, w.1, |BgOf(bg, w.0, Chan(cfg, w.1)).saved|, pRow[w])
    {
      MovePRow(log, place, place', w.0, w.1, |BgOf(bg, w.0, Chan(cfg, w.1)).saved|, pRow[w]);
    }
  }

  // ---- Freshness ----

  lemma MoveFresh(log: seq<Upd>, place: seq<Place>, place': seq<Place>, key: Key, ids: set<nat>, m: int)
    requires |place'| == |place| == |log| && Fresh(log, place, key, ids, m) && StillGone(place, place')
    ensures Fresh(log, place', key, ids, m)
  {
  }

  lemma MoveGoodOne(log: seq<Upd>, place: seq<Place>, place': seq<Place>, view: map<Key, set<nat>>, clock: int, d: Down)
    requires |place'| == |place| == |log| && GoodOne(log, place, view, clock, d) && StillGone(place, place')
    ensures GoodOne(log, place', view, clock, d)
  {
    forall k, ids | Fresh(log, place, k, ids, d.clock) ensures Fresh(log, place', k, ids, d.clock) {
      MoveFresh(log, place, place', k, ids, d.clock);
    }
    hide Fresh, StillGone;
  }

  lemma {:induction false} MoveGood(log: seq<Upd>, place: seq<Place>, place': seq<Place>,
                                    view: map<Key, set<nat>>, clock: int, q: seq<Down>)
    requires |place'| == |place| == |log| && Good(log, place, view, clock, q) && StillGone(place, place')
    ensures Good(log, place', view, clock, q)
    decreases |q|
  {
    hide GoodOne, StillGone, Seen;
    if q != [] {
      MoveGoodOne(log, place, place', view, clock, q[0]);
      MoveGood(log, place, place', Seen(view, q[0]), q[0].clock, q[1..]);
    }
  }

  lemma MoveDownstream(cfg: Config, log: seq<Upd>, place: seq<Place>, place': seq<Place>,
                       pRow: map<(nat, Key), PRow>, seen: map<(nat, Srv), int>,
                       down: map<(nat, Srv), seq<Down>>, srv: map<Srv, Server>)
    requires |place'| == |place| == |log| && StillGone(place, place')
    requires Downstream(cfg, log, place, pRow, seen, down, srv)
    ensures Downstream(cfg, log, place', pRow, seen, down, srv)
  {
    hide Good, StillGone, ViewOf, EndClock;
    forall c: nat, v | c < |cfg.threads| && cfg.HasServer(v)
      ensures Good(log, place', ViewOf(cfg, pRow, c, v), ClockAt(seen, c, v), Queue(down, c, v))
    {
      MoveGood(log, place, place', ViewOf(cfg, pRow, c, v), ClockAt(seen, c, v), Queue(down, c, v));
    }
  }

  lemma MoveRowsFresh(cfg: Config, log: seq<Upd>, place: seq<Place>, place': seq<Place>, pRow: map<(nat, Key), PRow>,
                      seen: map<(nat, Srv), int>, pushClock: map<(nat, Srv), int>)
    requires |place'| == |place| == |log| && StillGone(place, place')
    requires RowsFresh(cfg, log, place, pRow, seen, pushClock)
    ensures RowsFresh(cfg, log, place', pRow, seen, pushClock)
  {
    hide Fresh, StillGone;
    forall w | w in pRow
      ensures RowFresh(log, place', w.1, pRow[w], ClockAt(pushClock, w.0, Home(cfg, w.1)),
                       ClockAt(seen, w.0, Home(cfg, w.1)))
    {
      MoveFresh(log, place, place', w.1, pRow[w].base, pRow[w].clock);
      MoveFresh(log, place, place', w.1, pRow[w].base, ClockAt(pushClock, w.0, Home(cfg, w.1)));
    }
  }

  lemma MoveThreadRow(cfg: Config, log: seq<Upd>, place: seq<Place>, place': seq<Place>, clock: map<Thread, nat>,
                      ticks: map<Thread, nat>, t: Thread, key: Key, mine: Cell, row: Cell)
    requires |place'| == |place| == |log| && ThreadRow(cfg, log, place, clock, ticks, t, key, mine, row)
    requires StillGone(place, place')
    ensures ThreadRow(cfg, log, place', clock, ticks, t, key, mine, row)
  {
    MoveFresh(log, place, place', key, row.ids, StalestAt(cfg, clock, t, key.table));
    hide Fresh, CellOk, AllTicked;
  }

  lemma MoveThreadRows(cfg: Config, log: seq<Upd>, place: seq<Place>, place': seq<Place>, clock: map<Thread, nat>,
                       pc: map<Thread, Pc>, ticks: map<Thread, nat>, tOplog: map<(Thread, Key), Cell>,
                       tCache: map<(Thread, Key), Cell>)
    requires |place'| == |place| == |log| && ThreadRows(cfg, log, place, clock, pc, ticks, tOplog, tCache)
    requires StillGone(place, place')
    ensures ThreadRows(cfg, log, place', clock, pc, ticks, tOplog, tCache)
  {
    hide ThreadRow, StillGone;
    forall w | w in tCache && PcOf(pc, w.0) == Running
      ensures ThreadRow(cfg, log, place', clock, ticks, w.0, w.1, Oplog(tOplog, w), tCache[w])
    {
      MoveThreadRow(cfg, log, place, place', clock, ticks, w.0, w.1, Oplog(tOplog, w), tCache[w]);
    }
  }
}
