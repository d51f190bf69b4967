/** A server thread takes one message from a client: a row request, or a batch of updates. */
module ApplySteps {
  import opened Rows
  import opened VectorClocks
  import opened ServerSpec
  import opened Protocol
  import opened Invariant
  import opened ServeSteps
  import SendSteps

  lemma ServeKeeps(cfg: Config, s: State, c: nat, v: Srv)
    requires Inv(cfg, s) && MayServe(cfg, s, c, v)
    ensures Inv(cfg, DoServe(cfg, s, c, v))
  {
    hide Inv;
    match Queue(s.up, c, v)[0] {
      case Ask(key, asked) => AskKeeps(cfg, s, c, v, key, asked);
      case Batch(version, isClock, bgClock, rows) => BatchKeeps(cfg, s, c, v, version, isClock, bgClock, rows);
    }
  }

  // ---- Row requests ----

  lemma AskKeeps(cfg: Config, s: State, c: nat, v: Srv, key: Key, asked: int)
    requires Inv(cfg, s) && MayServe(cfg, s, c, v) && Queue(s.up, c, v)[0] == Ask(key, asked)
    ensures Inv(cfg, DoServe(cfg, s, c, v))
  {
    PopAsk(cfg, s, c, v, key, asked);
    AskOwn(cfg, s, c, v, key, asked);
    hide Inv, OwnKeys, SameRows, Emits;
    var sv := SrvOf(cfg, s.srv, v);
    var r := sv.OnRowRequest(cfg.push, c, key, asked);
    var t := s.(up := s.up[(c, v) := Queue(s.up, c, v)[1..]]);
    var replies := (d: nat) => if d == c then r.1 else [];
    var down' := s.down[(c, v) := Queue(s.down, c, v) + r.1];
    AskSame(cfg, v, sv, c, key, asked);
    AskEmits(cfg, v, sv, c, key, asked, s.down);
    EmitKeeps(cfg, t, v, r.0, false, replies, down');
  }

  lemma PopAsk(cfg: Config, s: State, c: nat, v: Srv, key: Key, asked: int)
    requires Inv(cfg, s) && MayServe(cfg, s, c, v) && Queue(s.up, c, v)[0] == Ask(key, asked)
    ensures Inv(cfg, s.(up := s.up[(c, v) := Queue(s.up, c, v)[1..]]))
    ensures Home(cfg, key) == v
  {
    var up' := s.up[(c, v) := Queue(s.up, c, v)[1..]];
    SendSteps.UpRest(cfg, s, up');
    PopLinks(cfg, s.bg, s.up, s.srv, c, v, key, asked);
    hide Where, Caches, Values, Clocks, Bgs, Flushes, Coverage, InTime, Network;
  }

  lemma PopLinks(cfg: Config, bg: map<(nat, nat), Bg>, up: map<(nat, Srv), seq<Up>>, srv: map<Srv, Server>,
                 c: nat, v: Srv, key: Key, asked: int)
    requires Network(cfg, bg, up, srv) && c < |cfg.threads| && cfg.HasServer(v)
    requires Queue(up, c, v) != [] && Queue(up, c, v)[0] == Ask(key, asked)
    ensures Network(cfg, bg, up[(c, v) := Queue(up, c, v)[1..]], srv)
    ensures Home(cfg, key) == v
  {
    var up' := up[(c, v) := Queue(up, c, v)[1..]];
    QueueSet(up, c, v, Queue(up, c, v)[1..]);
    forall d: nat, u | d < |cfg.threads| && cfg.HasServer(u)
      ensures Link(cfg, d, u, BgOf(bg, d, u.chan), SrvOf(cfg, srv, u), Queue(up', d, u))
    {
      assert Link(cfg, d, u, BgOf(bg, d, u.chan), SrvOf(cfg, srv, u), Queue(up, d, u));
    }
    assert Link(cfg, c, v, BgOf(bg, c, v.chan), SrvOf(cfg, srv, v), Queue(up, c, v));
  }

  lemma AskOwn(cfg: Config, s: State, c: nat, v: Srv, key: Key, asked: int)
    requires Caches(cfg, s) && cfg.HasServer(v) && Home(cfg, key) == v
    ensures OwnKeys(cfg, v, SrvOf(cfg, s.srv, v).OnRowRequest(cfg.push, c, key, asked).0)
  {
    hide Copies, PRows, Downstream, Coherent, RowsFresh, SysClocks, ThreadRows;
    var sv := SrvOf(cfg, s.srv, v);
    assert OwnKeys(cfg, v, sv);
    hide ServerKeys;
    AskKeys(cfg, v, sv, c, key, asked);
  }

  lemma AskKeys(cfg: Config, v: Srv, s: Server, c: nat, key: Key, asked: int)
    requires OwnKeys(cfg, v, s) && Home(cfg, key) == v
    ensures OwnKeys(cfg, v, s.OnRowRequest(cfg.push, c, key, asked).0)
  {
    var s' := s.OnRowRequest(cfg.push, c, key, asked).0;
    forall w, k | w in s'.pending && k in s'.pending[w] ensures Home(cfg, k) == v {
      assert k == key || (w in s.pending && k in s.pending[w]);
    }
  }

  lemma AskSame(cfg: Config, v: Srv, s: Server, c: nat, key: Key, asked: int)
    ensures var s' := s.OnRowRequest(cfg.push, c, key, asked).0;
      SameRows(s, s') && s'.dirty == s.dirty && s.subs <= s'.subs
  {
    var s' := s.OnRowRequest(cfg.push, c, key, asked).0;
    forall k ensures s'.RowAt(k) == s.RowAt(k) {
    }
    forall d ensures s'.Ver(d) == s.Ver(d) {
    }
  }

  lemma AskEmits(cfg: Config, v: Srv, s: Server, c: nat, key: Key, asked: int, down: map<(nat, Srv), seq<Down>>)
    requires Home(cfg, key) == v
    ensures var r := s.OnRowRequest(cfg.push, c, key, asked);
      Emits(cfg, v, r.0, false, (d: nat) => if d == c then r.1 else [], down, down[(c, v) := Queue(down, c, v) + r.1])
  {
    var r := s.OnRowRequest(cfg.push, c, key, asked);
    var replies := (d: nat) => if d == c then r.1 else [];
    var down' := down[(c, v) := Queue(down, c, v) + r.1];
    QueueSet(down, c, v, Queue(down, c, v) + r.1);
    AskCurrent(cfg, v, s, c, key, asked);
    hide AllCurrent;
    forall d: nat | d < |cfg.threads|
      ensures AllCurrent(cfg, v, r.0, d, replies(d))
      ensures Queue(down', d, v) == Queue(down, d, v) + (replies(d) + [])
    {
      NoneCurrent(cfg, v, r.0, d);
      assert replies(d) + [] == replies(d);
      if d != c {
        assert Queue(down, d, v) + [] == Queue(down, d, v);
      }
    }
  }

  lemma NoneCurrent(cfg: Config, v: Srv, s: Server, c: nat)
    ensures AllCurrent(cfg, v, s, c, [])
  {
  }

  lemma AskCurrent(cfg: Config, v: Srv, s: Server, c: nat, key: Key, asked: int)
    requires Home(cfg, key) == v
    ensures var r := s.OnRowRequest(cfg.push, c, key, asked); AllCurrent(cfg, v, r.0, c, r.1)
  {
  }

  // ---- Batches ----

  lemma BatchKeeps(cfg: Config, s: State, c: nat, v: Srv, version: nat, isClock: bool, bgClock: int,
                   rows: map<Key, Cell>)
    requires Inv(cfg, s) && MayServe(cfg, s, c, v) && Queue(s.up, c, v)[0] == Batch(version, isClock, bgClock, rows)
    ensures Inv(cfg, DoServe(cfg, s, c, v))
  {
    ApplyKeeps(cfg, s, c, v, version, isClock, bgClock, rows);
    hide Inv;
    var sv := SrvOf(cfg, s.srv, v);
    var m := sv.Clocked(c, isClock, bgClock, rows);
    var t := s.(up := s.up[(c, v) := Queue(s.up, c, v)[1..]], srv := s.srv[v := m]);
    ReleaseKeeps(cfg, s, t, c, v, sv, m, isClock, bgClock, rows);
  }

  /** The minimum may have moved: answer those that waited for it, then push. */
  lemma ReleaseKeeps(cfg: Config, s: State, t: State, c: nat, v: Srv, sv: Server, m: Server, isClock: bool,
                     bgClock: int, rows: map<Key, Cell>)
    requires Inv(cfg, t) && cfg.HasServer(v) && c < |cfg.threads|
    requires sv == SrvOf(cfg, s.srv, v) && m == sv.Clocked(c, isClock, bgClock, rows) && SrvOf(cfg, t.srv, v) == m
    requires Queue(s.up, c, v) != [] && Queue(s.up, c, v)[0].Batch?
    requires Queue(s.up, c, v)[0] == Batch(Queue(s.up, c, v)[0].version, isClock, bgClock, rows)
    requires t == s.(up := s.up[(c, v) := Queue(s.up, c, v)[1..]], srv := s.srv[v := m])
    ensures Inv(cfg, DoServe(cfg, s, c, v))
  {
    var moved := m.vc.min != sv.vc.min;
    var r := if moved then m.Fulfil(cfg.push) else m;
    var replies := (d: nat) => if moved then m.RepliesTo(d) else [];
    var down' := DoServe(cfg, s, c, v).down;
    ReleaseOwn(cfg, t, v, m, moved);
    hide Inv, OwnKeys;
    FulfilSame(m, cfg.push);
    ReleaseEmits(cfg, s, c, v, sv, m, isClock, bgClock, rows, r, replies);
    hide Emits, SameRows;
    EmitKeeps(cfg, t, v, r, moved && cfg.push, replies, down');
    ReleaseState(cfg, s, t, c, v, sv, m, isClock, bgClock, rows, r);
  }

  lemma ReleaseState(cfg: Config, s: State, t: State, c: nat, v: Srv, sv: Server, m: Server, isClock: bool,
                     bgClock: int, rows: map<Key, Cell>, r: Server)
    requires sv == SrvOf(cfg, s.srv, v) && m == sv.Clocked(c, isClock, bgClock, rows)
    requires Queue(s.up, c, v) != [] && Queue(s.up, c, v)[0].Batch?
    requires Queue(s.up, c, v)[0] == Batch(Queue(s.up, c, v)[0].version, isClock, bgClock, rows)
    requires t == s.(up := s.up[(c, v) := Queue(s.up, c, v)[1..]], srv := s.srv[v := m])
    requires r == if m.vc.min != sv.vc.min then m.Fulfil(cfg.push) else m
    ensures var s' := DoServe(cfg, s, c, v);
      s' == t.(srv := t.srv[v := Final(r, m.vc.min != sv.vc.min && cfg.push)], down := s'.down)
  {
    assert s.srv[v := m][v := Final(r, m.vc.min != sv.vc.min && cfg.push)]
        == s.srv[v := Final(r, m.vc.min != sv.vc.min && cfg.push)];
  }

  lemma ReleaseOwn(cfg: Config, t: State, v: Srv, m: Server, moved: bool)
    requires Inv(cfg, t) && cfg.HasServer(v) && SrvOf(cfg, t.srv, v) == m
    ensures OwnKeys(cfg, v, if moved then m.Fulfil(cfg.push) else m)
    ensures OwnKeys(cfg, v, m)
  {
    hide Where, Timing, Values, Copies, PRows, Downstream, Coherent, RowsFresh, SysClocks, ThreadRows;
    assert OwnKeys(cfg, v, m);
  }

  lemma FulfilSame(m: Server, push: bool)
    ensures var r := m.Fulfil(push); SameRows(m, r) && r.dirty == m.dirty && m.subs <= r.subs
    ensures SameRows(m, m)
  {
    var r := m.Fulfil(push);
    forall k ensures r.RowAt(k) == m.RowAt(k) {
    }
    forall c ensures r.Ver(c) == m.Ver(c) {
    }
  }

  lemma OutSplit(push: bool, s: Server, c: nat, isClock: bool, bgClock: int, rows: map<Key, Cell>, to: nat)
    ensures var m := s.Clocked(c, isClock, bgClock, rows);
      var moved := m.vc.min != s.vc.min;
      s.OutTo(push, c, isClock, bgClock, rows, to)
        == (if moved then m.RepliesTo(to) else []) + (if moved && push then [m.Fulfil(push).PushTo(to)] else [])
  {
  }

  lemma ReleaseOne(cfg: Config, v: Srv, sv: Server, m: Server, c: nat, isClock: bool, bgClock: int,
                   rows: map<Key, Cell>, r: Server, d: nat)
    requires m == sv.Clocked(c, isClock, bgClock, rows) && OwnKeys(cfg, v, m)
    requires r == if m.vc.min != sv.vc.min then m.Fulfil(cfg.push) else m
    ensures var moved := m.vc.min != sv.vc.min;
      var replies := if moved then m.RepliesTo(d) else [];
      && AllCurrent(cfg, v, r, d, replies)
      && sv.OutTo(cfg.push, c, isClock, bgClock, rows, d)
         == replies + if moved && cfg.push then [r.PushTo(d)] else []
  {
    OutSplit(cfg.push, sv, c, isClock, bgClock, rows, d);
    hide OwnKeys, AllCurrent, Server.OutTo, Server.Fulfil, Server.PushTo, Server.RepliesTo, Server.Clocked;
    if m.vc.min != sv.vc.min {
      RepliesCurrent(cfg, v, m, d);
    } else {
      NoneCurrent(cfg, v, r, d);
    }
  }

  lemma ReleaseEmits(cfg: Config, s: State, c: nat, v: Srv, sv: Server, m: Server, isClock: bool, bgClock: int,
                     rows: map<Key, Cell>, r: Server, replies: nat -> seq<Down>)
    requires c < |cfg.threads| && sv == SrvOf(cfg, s.srv, v) && m == sv.Clocked(c, isClock, bgClock, rows)
    requires OwnKeys(cfg, v, m)
    requires Queue(s.up, c, v) != [] && Queue(s.up, c, v)[0].Batch?
    requires Queue(s.up, c, v)[0] == Batch(Queue(s.up, c, v)[0].version, isClock, bgClock, rows)
    requires r == if m.vc.min != sv.vc.min then m.Fulfil(cfg.push) else m
    requires forall d: nat :: replies(d) == if m.vc.min != sv.vc.min then m.RepliesTo(d) else []
    ensures Emits(cfg, v, r, m.vc.min != sv.vc.min && cfg.push, replies, s.down, DoServe(cfg, s, c, v).down)
  {
    hide OwnKeys, DoServe, Queue, AllCurrent, Server.OutTo, Server.Fulfil, Server.PushTo, Server.RepliesTo,
         Server.Clocked, SrvOf;
    var down' := DoServe(cfg, s, c, v).down;
    forall d: nat | d < |cfg.threads|
      ensures AllCurrent(cfg, v, r, d, replies(d))
      ensures Queue(down', d, v) == Queue(s.down, d, v)
                + (replies(d) + if m.vc.min != sv.vc.min && cfg.push then [r.PushTo(d)] else [])
    {
      ReleaseOne(cfg, v, sv, m, c, isClock, bgClock, rows, r, d);
      OutQueue(cfg, s, c, v, d, v);
    }
    forall d: nat, u | u != v ensures Queue(down', d, u) == Queue(s.down, d, u) {
      OutQueue(cfg, s, c, v, d, u);
      assert Queue(s.down, d, u) + [] == Queue(s.down, d, u);
    }
  }

  lemma OutQueue(cfg: Config, s: State, c: nat, v: Srv, d: nat, u: Srv)
    requires Queue(s.up, c, v) != [] && Queue(s.up, c, v)[0].Batch?
    ensures var m := Queue(s.up, c, v)[0];
      Queue(DoServe(cfg, s, c, v).down, d, u) == Queue(s.down, d, u) +
        if u == v && d < |cfg.threads|
        then SrvOf(cfg, s.srv, v).OutTo(cfg.push, c, m.isClock, m.bgClock, m.rows, d) else []
  {
    hide Server.OutTo, Server.OnOpLog, Server.OnRowRequest, SrvOf;
    if !(u == v && d < |cfg.threads|) {
      assert Queue(s.down, d, u) + [] == Queue(s.down, d, u);
    }
  }

  lemma RepliesCurrent(cfg: Config, v: Srv, m: Server, d: nat)
    requires OwnKeys(cfg, v, m)
    ensures AllCurrent(cfg, v, m.Fulfil(cfg.push), d, m.RepliesTo(d))
  {
    var r := m.Fulfil(cfg.push);
    FulfilSame(m, cfg.push);
    forall n | 0 <= n < |m.RepliesTo(d)| ensures Current(cfg, v, r, d, m.RepliesTo(d)[n]) {
      var key := m.Pend(m.vc.min, d)[n];
      assert (m.vc.min, d) in m.pending && key in m.pending[(m.vc.min, d)];
      assert (d, key) in m.Ready();
    }
  }

  // ---- Apply first, then clock ----

  /** What a message at the head of the queue is: the next batch, whole, with the right clock. */
  ghost predicate NextBatch(cfg: Config, v: Srv, b: Bg, s: Server, c: nat, version: nat, isClock: bool, bgClock: int,
                            rows: map<Key, Cell>)
  {
    && c in s.vc.clk && s.vc.Valid()
    && version == s.Ver(c) < |b.saved| && version + 1 < |b.hist|
    && rows == Restrict(cfg, b.saved[version], v)
    && b.hist[version + 1] == b.hist[version] + (if isClock then 1 else 0)
    && s.vc.clk[c] == b.hist[version] && bgClock == s.vc.clk[c] + 1
  }

  /** The version check of the server never fails, and clocks advance one per message. */
  lemma VersionMatches(cfg: Config, s: State, c: nat, v: Srv, version: nat, isClock: bool, bgClock: int,
                       rows: map<Key, Cell>)
    requires Network(cfg, s.bg, s.up, s.srv) && MayServe(cfg, s, c, v)
    requires Queue(s.up, c, v)[0] == Batch(version, isClock, bgClock, rows)
    ensures NextBatch(cfg, v, BgOf(s.bg, c, v.chan), SrvOf(cfg, s.srv, v), c, version, isClock, bgClock, rows)
  {
    assert Link(cfg, c, v, BgOf(s.bg, c, v.chan), SrvOf(cfg, s.srv, v), Queue(s.up, c, v));
  }

  /** The server after it has applied and clocked. */
  ghost predicate Advanced(s: Server, m: Server, c: nat, isClock: bool, rows: map<Key, Cell>) {
    && m.vc.Valid() && s.vc.min <= m.vc.min
    && c in s.vc.clk && m.vc.clk == s.vc.clk[c := s.vc.clk[c] + if isClock then 1 else 0]
    && (forall d {:trigger m.Ver(d)} :: m.Ver(d) == s.Ver(d) + if d == c then 1 else 0)
    && (forall k {:trigger m.RowAt(k)} ::
          m.RowAt(k) == if k in rows then Merge(s.RowAt(k), rows[k]) else s.RowAt(k))
    && m.dirty == s.dirty + rows.Keys && m.subs == s.subs && m.pending == s.pending
  }

  lemma ClockedAdvances(s: Server, c: nat, isClock: bool, bgClock: int, rows: map<Key, Cell>)
    requires s.vc.Valid() && c in s.vc.clk && bgClock == s.vc.clk[c] + 1
    ensures Advanced(s, s.Clocked(c, isClock, bgClock, rows), c, isClock, rows)
  {
    var m := s.Clocked(c, isClock, bgClock, rows);
    if isClock {
      TickUntilValid(s.vc, c, bgClock);
    } else {
      assert s.vc.clk == s.vc.clk[c := s.vc.clk[c]];
    }
    forall k ensures m.RowAt(k) == if k in rows then Merge(s.RowAt(k), rows[k]) else s.RowAt(k) {
    }
    forall d ensures m.Ver(d) == s.Ver(d) + if d == c then 1 else 0 {
    }
  }

  lemma ApplyKeeps(cfg: Config, s: State, c: nat, v: Srv, version: nat, isClock: bool, bgClock: int,
                   rows: map<Key, Cell>)
    requires Inv(cfg, s) && MayServe(cfg, s, c, v) && Queue(s.up, c, v)[0] == Batch(version, isClock, bgClock, rows)
    ensures Inv(cfg, s.(up := s.up[(c, v) := Queue(s.up, c, v)[1..]],
                        srv := s.srv[v := SrvOf(cfg, s.srv, v).Clocked(c, isClock, bgClock, rows)]))
  {
    hide LogOk, ThreadOplogs, TableOplogs, Cancelled, Gathered, Batches, ServerRows, Clocks, Bgs, Flushes, Coverage,
         InTime, Network, Copies, PRows, Downstream, ServerKeys, Coherent, RowsFresh, SysClocks, ThreadRows, CellsOk,
         ServerCells, NextBatch, Advanced;
    var b, sv := BgOf(s.bg, c, v.chan), SrvOf(cfg, s.srv, v);
    var m := sv.Clocked(c, isClock, bgClock, rows);
    VersionMatches(cfg, s, c, v, version, isClock, bgClock, rows);
    NextAdvances(cfg, v, b, sv, c, version, isClock, bgClock, rows);
    ApplyRows(cfg, s, c, v, version, isClock, bgClock, rows, m);
    ApplyCells(cfg, s, c, v, version, isClock, bgClock, rows, m);
    ApplyLinks(cfg, s.bg, s.up, s.srv, c, v, version, isClock, bgClock, rows, m);
    ApplyDownstream(cfg, s.log, s.place, s.pRow, s.seen, s.down, s.srv, c, v, isClock, rows, m);
    ApplyCoherent(cfg, s.pRow, s.down, s.srv, c, v, isClock, rows, m);
    ApplyOwn(cfg, s.srv, c, v, isClock, rows, m);
  }

  lemma NextAdvances(cfg: Config, v: Srv, b: Bg, s: Server, c: nat, version: nat, isClock: bool, bgClock: int,
                     rows: map<Key, Cell>)
    requires NextBatch(cfg, v, b, s, c, version, isClock, bgClock, rows)
    ensures Advanced(s, s.Clocked(c, isClock, bgClock, rows), c, isClock, rows)
  {
    ClockedAdvances(s, c, isClock, bgClock, rows);
  }

  /** The rows of the batch are exactly the updates that were sent in it to this server. */
  lemma BatchIds(cfg: Config, log: seq<Upd>, place: seq<Place>, bg: map<(nat, nat), Bg>, c: nat, v: Srv, version: nat,
                 rows: map<Key, Cell>, i: nat)
    requires |place| == |log| && Batches(cfg, log, place, bg) && cfg.HasBg(c, v.chan)
    requires version < |BgOf(bg, c, v.chan).saved|
    requires rows == Restrict(cfg, BgOf(bg, c, v.chan).saved[version], v)
    ensures forall k :: k in rows && i in rows[k].ids ==>
              && i < |place| && place[i] == Sent(version) && log[i].key == k
              && log[i].thread.client == c && Home(cfg, k) == v
    ensures (i < |place| && place[i] == Sent(version) && log[i].thread.client == c && Home(cfg, log[i].key) == v)
              ==> log[i].key in rows && i in rows[log[i].key].ids
  {
    forall k | k in rows && i in rows[k].ids
      ensures i < |place| && place[i] == Sent(version) && log[i].key == k
      ensures log[i].thread.client == c && Home(cfg, k) == v
    {
      assert i in BgOf(bg, c, v.chan).saved[version][k].ids;
    }
  }

  lemma ApplyRows(cfg: Config, s: State, c: nat, v: Srv, version: nat, isClock: bool, bgClock: int,
                  rows: map<Key, Cell>, m: Server)
    requires LogOk(cfg, s.log, s.place) && ServerRows(cfg, s.log, s.place, s.srv)
    requires Batches(cfg, s.log, s.place, s.bg) && MayServe(cfg, s, c, v)
    requires NextBatch(cfg, v, BgOf(s.bg, c, v.chan), SrvOf(cfg, s.srv, v), c, version, isClock, bgClock, rows)
    requires Advanced(SrvOf(cfg, s.srv, v), m, c, isClock, rows)
    ensures ServerRows(cfg, s.log, s.place, s.srv[v := m])
  {
    forall i: nat
      ensures forall k :: k in rows && i in rows[k].ids ==>
                i < |s.place| && s.place[i] == Sent(version) && s.log[i].key == k && s.log[i].thread.client == c
                && Home(cfg, k) == v
      ensures (i < |s.place| && s.place[i] == Sent(version) && s.log[i].thread.client == c
               && Home(cfg, s.log[i].key) == v) ==> s.log[i].key in rows && i in rows[s.log[i].key].ids
    {
      BatchIds(cfg, s.log, s.place, s.bg, c, v, version, rows, i);
    }
    assert SrvOf(cfg, s.srv, v).Ver(c) == version;
    hide Batches, Restrict, NextBatch;
    AppliedRows(cfg, s.log, s.place, s.srv, c, v, version, isClock, rows, m);
  }

  lemma AppliedRows(cfg: Config, log: seq<Upd>, place: seq<Place>, srv: map<Srv, Server>, c: nat, v: Srv,
                    version: nat, isClock: bool, rows: map<Key, Cell>, m: Server)
    requires |place| == |log| && ServerRows(cfg, log, place, srv) && SrvOf(cfg, srv, v).Ver(c) == version
    requires Advanced(SrvOf(cfg, srv, v), m, c, isClock, rows)
    requires forall i: nat, k {:trigger i in rows[k].ids} :: k in rows && i in rows[k].ids ==>
               i < |place| && place[i] == Sent(version) && log[i].key == k && log[i].thread.client == c
               && Home(cfg, k) == v
    requires forall i {:trigger place[i]} ::
               (&& 0 <= i < |place| && place[i] == Sent(version)
                && log[i].thread.client == c && Home(cfg, log[i].key) == v)
                 ==> log[i].key in rows && i in rows[log[i].key].ids
    ensures ServerRows(cfg, log, place, srv[v := m])
  {
    var srv', sv := srv[v := m], SrvOf(cfg, srv, v);
    SrvSet(cfg, srv, v, m);
    forall i | 0 <= i < |place| && place[i].Sent?
      ensures var s := SrvOf(cfg, srv', Home(cfg, log[i].key));
        place[i].batch < s.Ver(log[i].thread.client) ==> i in s.RowAt(log[i].key).ids
    {
      var k := log[i].key;
      if Home(cfg, k) == v && place[i].batch < m.Ver(log[i].thread.client) {
        assert m.RowAt(k) == if k in rows then Merge(sv.RowAt(k), rows[k]) else sv.RowAt(k);
      }
    }
    forall u, k, i: nat {:trigger i in SrvOf(cfg, srv', u).RowAt(k).ids} |
        cfg.HasServer(u) && i in SrvOf(cfg, srv', u).RowAt(k).ids
      ensures i < |place| && place[i].Sent? && log[i].key == k && Home(cfg, k) == u
      ensures place[i].batch < SrvOf(cfg, srv', u).Ver(log[i].thread.client)
    {
      if u == v {
        assert i in sv.RowAt(k).ids || (k in rows && i in rows[k].ids);
      } else {
        assert i in SrvOf(cfg, srv, u).RowAt(k).ids;
      }
    }
  }

  lemma ApplyCells(cfg: Config, s: State, c: nat, v: Srv, version: nat, isClock: bool, bgClock: int,
                   rows: map<Key, Cell>, m: Server)
    requires LogOk(cfg, s.log, s.place) && ServerRows(cfg, s.log, s.place, s.srv)
    requires Batches(cfg, s.log, s.place, s.bg) && Values(cfg, s) && MayServe(cfg, s, c, v)
    requires NextBatch(cfg, v, BgOf(s.bg, c, v.chan), SrvOf(cfg, s.srv, v), c, version, isClock, bgClock, rows)
    requires Advanced(SrvOf(cfg, s.srv, v), m, c, isClock, rows)
    ensures ServerCells(cfg, s.log, s.srv[v := m])
  {
    hide CellOk;
    var sv, b := SrvOf(cfg, s.srv, v), BgOf(s.bg, c, v.chan);
    SrvSet(cfg, s.srv, v, m);
    assert BgCells(s.log, b);
    assert AllOk(s.log, b.saved[version]);
    forall k | k in rows ensures CellOk(s.log, m.RowAt(k)) {
      assert rows[k] == b.saved[version][k];
      forall i: nat | i in rows[k].ids ensures i !in sv.RowAt(k).ids {
        BatchIds(cfg, s.log, s.place, s.bg, c, v, version, rows, i);
      }
      assert CellOk(s.log, sv.RowAt(k));
      MergeOk(s.log, sv.RowAt(k), rows[k]);
      assert m.RowAt(k) == Merge(sv.RowAt(k), rows[k]);
    }
    var srv' := s.srv[v := m];
    forall u, k | cfg.HasServer(u) ensures CellOk(s.log, SrvOf(cfg, srv', u).RowAt(k)) {
      assert CellOk(s.log, SrvOf(cfg, s.srv, u).RowAt(k));
    }
  }

  lemma ApplyLinks(cfg: Config, bg: map<(nat, nat), Bg>, up: map<(nat, Srv), seq<Up>>, srv: map<Srv, Server>,
                   c: nat, v: Srv, version: nat, isClock: bool, bgClock: int, rows: map<Key, Cell>, m: Server)
    requires Network(cfg, bg, up, srv) && c < |cfg.threads| && cfg.HasServer(v)
    requires Queue(up, c, v) != [] && Queue(up, c, v)[0] == Batch(version, isClock, bgClock, rows)
    requires NextBatch(cfg, v, BgOf(bg, c, v.chan), SrvOf(cfg, srv, v), c, version, isClock, bgClock, rows)
    requires Advanced(SrvOf(cfg, srv, v), m, c, isClock, rows)
    ensures Network(cfg, bg, up[(c, v) := Queue(up, c, v)[1..]], srv[v := m])
  {
    var up', srv', q := up[(c, v) := Queue(up, c, v)[1..]], srv[v := m], Queue(up, c, v);
    hide Link, BgOf, Queue, SrvOf, Restrict;
    QueueSet(up, c, v, q[1..]);
    SrvSet(cfg, srv, v, m);
    forall d: nat, u | d < |cfg.threads| && cfg.HasServer(u)
      ensures Link(cfg, d, u, BgOf(bg, d, u.chan), SrvOf(cfg, srv', u), Queue(up', d, u))
    {
      assert Link(cfg, d, u, BgOf(bg, d, u.chan), SrvOf(cfg, srv, u), Queue(up, d, u));
      if u == v {
        ApplyLink(cfg, d, c, v, BgOf(bg, d, v.chan), SrvOf(cfg, srv, v), m, Queue(up, d, v), isClock, rows);
      }
    }
    assert SrvOf(cfg, srv, v).vc.Valid();
  }

  lemma ApplyLink(cfg: Config, d: nat, c: nat, v: Srv, b: Bg, s: Server, m: Server, q: seq<Up>, isClock: bool,
                  rows: map<Key, Cell>)
    requires Link(cfg, d, v, b, s, q) && Advanced(s, m, c, isClock, rows)
    requires d == c ==> q != [] && q[0].Batch? && q[0].isClock == isClock
    ensures Link(cfg, d, v, b, m, if d == c then q[1..] else q)
  {
  }

  lemma ApplyDownstream(cfg: Config, log: seq<Upd>, place: seq<Place>, pRow: map<(nat, Key), PRow>,
                        seen: map<(nat, Srv), int>, down: map<(nat, Srv), seq<Down>>, srv: map<Srv, Server>,
                        c: nat, v: Srv, isClock: bool, rows: map<Key, Cell>, m: Server)
    requires |place| == |log| && Downstream(cfg, log, place, pRow, seen, down, srv)
    requires Advanced(SrvOf(cfg, srv, v), m, c, isClock, rows)
    ensures Downstream(cfg, log, place, pRow, seen, down, srv[v := m])
  {
    SrvSet(cfg, srv, v, m);
    hide Good, EndClock, ViewOf, Queue, ClockAt;
  }

  lemma ApplyCoherent(cfg: Config, pRow: map<(nat, Key), PRow>, down: map<(nat, Srv), seq<Down>>,
                      srv: map<Srv, Server>, c: nat, v: Srv, isClock: bool, rows: map<Key, Cell>, m: Server)
    requires Coherent(cfg, pRow, down, srv) && Advanced(SrvOf(cfg, srv, v), m, c, isClock, rows)
    ensures Coherent(cfg, pRow, down, srv[v := m])
  {
    SrvSet(cfg, srv, v, m);
    hide EndView, ViewOf, Queue;
  }

  lemma ApplyOwn(cfg: Config, srv: map<Srv, Server>, c: nat, v: Srv, isClock: bool, rows: map<Key, Cell>, m: Server)
    requires ServerKeys(cfg, srv) && Advanced(SrvOf(cfg, srv, v), m, c, isClock, rows)
    ensures ServerKeys(cfg, srv[v := m])
  {
    SrvSet(cfg, srv, v, m);
  }
}
