/** A server thread handles one message: apply first, then clock, then answer and push. */
module ServeSteps {
  import opened Rows
  import opened VectorClocks
  import opened ServerSpec
  import opened Protocol
  import opened Invariant

  // ---- What is put at the end of a queue ----

  lemma {:induction false} EndClockConcat(clock: int, q: seq<Down>, ds: seq<Down>)
    ensures EndClock(clock, q + ds) == EndClock(EndClock(clock, q), ds)
    decreases |q|
  {
    if q == [] {
      assert q + ds == ds;
    } else {
      assert (q + ds)[1..] == q[1..] + ds;
      EndClockConcat(q[0].clock, q[1..], ds);
    }
  }

  lemma {:induction false} EndViewConcat(view: map<Key, set<nat>>, q: seq<Down>, ds: seq<Down>)
    ensures EndView(view, q + ds) == EndView(EndView(view, q), ds)
    decreases |q|
  {
    if q == [] {
      assert q + ds == ds;
    } else {
      assert (q + ds)[1..] == q[1..] + ds;
      EndViewConcat(Seen(view, q[0]), q[1..], ds);
    }
  }

  lemma {:induction false} GoodConcat(log: seq<Upd>, place: seq<Place>, view: map<Key, set<nat>>, clock: int,
                                      q: seq<Down>, ds: seq<Down>)
    requires |place| == |log| && Good(log, place, view, clock, q)
    requires Good(log, place, EndView(view, q), EndClock(clock, q), ds)
    ensures Good(log, place, view, clock, q + ds)
    decreases |q|
  {
    hide GoodOne, Seen;
    if q == [] {
      assert q + ds == ds;
    } else {
      assert (q + ds)[1..] == q[1..] + ds;
      GoodConcat(log, place, Seen(view, q[0]), q[0].clock, q[1..], ds);
    }
  }

  // ---- The server's rows are as fresh as its clock ----

  ghost predicate FreshServer(cfg: Config, log: seq<Upd>, place: seq<Place>, v: Srv, s: Server)
    requires |place| == |log|
  {
    forall k {:trigger s.RowAt(k)} :: Home(cfg, k) == v ==> Fresh(log, place, k, s.RowAt(k).ids, s.vc.min)
  }

  /** Apply before clock: when the minimum is m, every update from iterations before m is in the rows. */
  lemma ServerFresh(cfg: Config, s: State, v: Srv)
    requires Where(cfg, s) && Timing(cfg, s) && cfg.HasServer(v)
    ensures FreshServer(cfg, s.log, s.place, v, SrvOf(cfg, s.srv, v))
  {
    hide ThreadOplogs, TableOplogs, Cancelled, Gathered, Batches, Clocks, Flushes, Coverage, UpOk;
    var sv := SrvOf(cfg, s.srv, v);
    forall k | Home(cfg, k) == v ensures Fresh(s.log, s.place, k, sv.RowAt(k).ids, sv.vc.min) {
      forall i | 0 <= i < |s.log| && s.log[i].key == k && s.log[i].clock < sv.vc.min
        ensures i in sv.RowAt(k).ids || s.place[i] == Gone
      {
        Applied(cfg, s, v, i);
      }
    }
  }

  lemma Applied(cfg: Config, s: State, v: Srv, i: nat)
    requires LogOk(cfg, s.log, s.place) && Bgs(cfg, s.posted, s.bg) && InTime(cfg, s.log, s.place, s.bg)
    requires Network(cfg, s.bg, s.up, s.srv) && ServerRows(cfg, s.log, s.place, s.srv) && cfg.HasServer(v)
    requires i < |s.log| && Home(cfg, s.log[i].key) == v && s.log[i].clock < SrvOf(cfg, s.srv, v).vc.min
    ensures i in SrvOf(cfg, s.srv, v).RowAt(s.log[i].key).ids || s.place[i] == Gone
  {
    var u, sv := s.log[i], SrvOf(cfg, s.srv, v);
    var c := u.thread.client;
    var b := BgOf(s.bg, c, v.chan);
    assert cfg.HasThread(u.thread);
    assert BgFine(cfg, Posted(s.posted, c, v.chan), b, v.chan);
    assert Link(cfg, c, v, b, sv, Queue(s.up, c, v));
    assert InTimeAt(s.place[i], u, BgFor(cfg, s.bg, u));
    hide UpOk, Bgs, Network, InTime;
    assert u.clock < sv.vc.min <= sv.vc.clk[c] == b.hist[sv.Ver(c)] <= b.hist[|b.saved|];
  }

  // ---- Copies made now ----

  /** A reply or part of a push that shows the server's row as it is. */
  ghost predicate Current(cfg: Config, v: Srv, s: Server, c: nat, m: Down) {
    && m.Reply? && Home(cfg, m.key) == v
    && m == Reply(m.key, s.vc.min, s.Ver(c), s.RowAt(m.key))
    && (cfg.push ==> (c, m.key) in s.subs)
  }

  ghost predicate AllCurrent(cfg: Config, v: Srv, s: Server, c: nat, ms: seq<Down>) {
    forall n {:trigger ms[n]} :: 0 <= n < |ms| ==> Current(cfg, v, s, c, ms[n])
  }

  lemma CopyNow(cfg: Config, log: seq<Upd>, place: seq<Place>, srv: map<Srv, Server>, c: nat, v: Srv, key: Key,
                upto: nat)
    requires |place| == |log| && ServerRows(cfg, log, place, srv) && ServerCells(cfg, log, srv)
    requires cfg.HasServer(v) && Home(cfg, key) == v && SrvOf(cfg, srv, v).Ver(c) <= upto
    ensures CopyOk(log, place, c, key, SrvOf(cfg, srv, v).Ver(c), upto, SrvOf(cfg, srv, v).RowAt(key))
  {
    hide CellOk;
  }

  /** After a run of replies the client's view holds its old copies and current ones. */
  ghost predicate Renewed(cfg: Config, s: Server, c: nat, view: map<Key, set<nat>>, view': map<Key, set<nat>>) {
    forall k :: k in view' ==>
      (k in view && view'[k] == view[k]) || (view'[k] == s.RowAt(k).ids && (cfg.push ==> (c, k) in s.subs))
  }

  lemma {:induction false} RepliesGood(cfg: Config, log: seq<Upd>, place: seq<Place>, v: Srv, s: Server, c: nat,
                                       view: map<Key, set<nat>>, clock: int, ms: seq<Down>)
    requires |place| == |log| && FreshServer(cfg, log, place, v, s)
    requires clock <= s.vc.min && AllCurrent(cfg, v, s, c, ms)
    ensures Good(log, place, view, clock, ms) && EndClock(clock, ms) <= s.vc.min
    ensures Renewed(cfg, s, c, view, EndView(view, ms))
    decreases |ms|
  {
    hide Fresh;
    if ms != [] {
      assert Current(cfg, v, s, c, ms[0]);
      RepliesGood(cfg, log, place, v, s, c, Seen(view, ms[0]), ms[0].clock, ms[1..]);
    }
  }

  lemma RenewedCoherent(cfg: Config, s: Server, c: nat, view: map<Key, set<nat>>, view': map<Key, set<nat>>)
    requires cfg.push && CoherentView(s, c, view) && Renewed(cfg, s, c, view, view')
    ensures CoherentView(s, c, view')
  {
  }

  /** A push brings a coherent view up to date: what it does not carry is clean. */
  lemma PushGood(cfg: Config, log: seq<Upd>, place: seq<Place>, v: Srv, s: Server, c: nat,
                 view: map<Key, set<nat>>, clock: int)
    requires |place| == |log| && FreshServer(cfg, log, place, v, s) && OwnKeys(cfg, v, s)
    requires clock <= s.vc.min && CoherentView(s, c, view)
    ensures GoodOne(log, place, view, clock, s.PushTo(c))
    ensures CoherentView(s.Cleaned(), c, Seen(view, s.PushTo(c)))
  {
    hide Fresh;
    var m := s.PushTo(c);
    forall k | k in m.rows ensures Home(cfg, k) == v && m.rows[k] == s.RowAt(k) {
      assert (c, k) in s.subs;
    }
    forall k | k in view ensures Home(cfg, k) == v && (k !in m.rows ==> view[k] == s.RowAt(k).ids) {
      assert (c, k) in s.subs;
    }
  }

  /** What one client's queue looks like after the server has answered, and maybe pushed. */
  lemma EmitOne(cfg: Config, log: seq<Upd>, place: seq<Place>, v: Srv, s: Server, c: nat, pushed: bool,
                view: map<Key, set<nat>>, clock: int, q: seq<Down>, ms: seq<Down>)
    requires |place| == |log| && FreshServer(cfg, log, place, v, s) && OwnKeys(cfg, v, s)
    requires Good(log, place, view, clock, q) && EndClock(clock, q) <= s.vc.min
    requires cfg.push ==> CoherentView(s, c, EndView(view, q))
    requires AllCurrent(cfg, v, s, c, ms) && (pushed ==> cfg.push)
    ensures var q' := q + (ms + if pushed then [s.PushTo(c)] else []);
      && Good(log, place, view, clock, q') && EndClock(clock, q') <= s.vc.min
      && (cfg.push ==> CoherentView(if pushed then s.Cleaned() else s, c, EndView(view, q')))
  {
    hide FreshServer, OwnKeys, CoherentView, AllCurrent, GoodOne, Renewed, Seen;
    RepliesGood(cfg, log, place, v, s, c, EndView(view, q), EndClock(clock, q), ms);
    GoodConcat(log, place, view, clock, q, ms);
    EndViewConcat(view, q, ms);
    EndClockConcat(clock, q, ms);
    if cfg.push {
      RenewedCoherent(cfg, s, c, EndView(view, q), EndView(view, q + ms));
    }
    if pushed {
      var m := s.PushTo(c);
      PushGood(cfg, log, place, v, s, c, EndView(view, q + ms), EndClock(clock, q + ms));
      assert [m][1..] == [];
      GoodConcat(log, place, view, clock, q + ms, [m]);
      EndViewConcat(view, q + ms, [m]);
      EndClockConcat(clock, q + ms, [m]);
      assert q + ms + [m] == q + (ms + [m]);
    } else {
      assert ms + [] == ms;
    }
  }

  // ---- The server answers: rows, versions and clocks stay as they are ----

  ghost predicate SameRows(s: Server, s': Server) {
    s'.vc == s.vc && (forall c :: s'.Ver(c) == s.Ver(c)) && (forall k :: s'.RowAt(k) == s.RowAt(k))
  }

  lemma SameServerRows(cfg: Config, log: seq<Upd>, place: seq<Place>, srv: map<Srv, Server>, v: Srv, s: Server)
    requires |place| == |log| && ServerRows(cfg, log, place, srv) && ServerCells(cfg, log, srv)
    requires SameRows(SrvOf(cfg, srv, v), s)
    ensures ServerRows(cfg, log, place, srv[v := s]) && ServerCells(cfg, log, srv[v := s])
  {
    var srv' := srv[v := s];
    forall u ensures SameRows(SrvOf(cfg, srv, u), SrvOf(cfg, srv', u)) {
    }
    forall i | 0 <= i < |place| && place[i].Sent?
      ensures var s := SrvOf(cfg, srv', Home(cfg, log[i].key));
        place[i].batch < s.Ver(log[i].thread.client) ==> i in s.RowAt(log[i].key).ids
    {
      assert SameRows(SrvOf(cfg, srv, Home(cfg, log[i].key)), SrvOf(cfg, srv', Home(cfg, log[i].key)));
    }
    forall u, k | cfg.HasServer(u) ensures SrvOf(cfg, srv', u).RowAt(k) == SrvOf(cfg, srv, u).RowAt(k) {
      assert SameRows(SrvOf(cfg, srv, u), SrvOf(cfg, srv', u));
    }
    forall u, k, i: nat | cfg.HasServer(u) && i in SrvOf(cfg, srv', u).RowAt(k).ids
      ensures i < |place| && place[i].Sent? && log[i].key == k && Home(cfg, k) == u
      ensures place[i].batch < SrvOf(cfg, srv', u).Ver(log[i].thread.client)
    {
      assert SameRows(SrvOf(cfg, srv, u), SrvOf(cfg, srv', u));
      assert i in SrvOf(cfg, srv, u).RowAt(k).ids;
    }
  }

  lemma SameServerLinks(cfg: Config, bg: map<(nat, nat), Bg>, up: map<(nat, Srv), seq<Up>>, srv: map<Srv, Server>,
                        v: Srv, s: Server)
    requires Network(cfg, bg, up, srv) && SameRows(SrvOf(cfg, srv, v), s)
    ensures Network(cfg, bg, up, srv[v := s])
  {
    hide UpOk;
    SrvSet(cfg, srv, v, s);
    forall c: nat, u | c < |cfg.threads| && cfg.HasServer(u)
      ensures Link(cfg, c, u, BgOf(bg, c, u.chan), SrvOf(cfg, srv[v := s], u), Queue(up, c, u))
    {
      assert Link(cfg, c, u, BgOf(bg, c, u.chan), SrvOf(cfg, srv, u), Queue(up, c, u));
    }
  }

  /** What each client is sent: the replies, then the push if there is one. */
  ghost predicate Emits(cfg: Config, v: Srv, s: Server, pushed: bool, replies: nat -> seq<Down>,
                        down: map<(nat, Srv), seq<Down>>, down': map<(nat, Srv), seq<Down>>)
  {
    && (pushed ==> cfg.push)
    && (forall c: nat {:trigger Queue(down', c, v)} :: c < |cfg.threads| ==>
          && AllCurrent(cfg, v, s, c, replies(c))
          && Queue(down', c, v) == Queue(down, c, v) + (replies(c) + if pushed then [s.PushTo(c)] else []))
    && (forall c: nat, u {:trigger Queue(down', c, u)} :: u != v ==> Queue(down', c, u) == Queue(down, c, u))
  }

  function Final(s: Server, pushed: bool): Server {
    if pushed then s.Cleaned() else s
  }

  lemma EmitAt(cfg: Config, log: seq<Upd>, place: seq<Place>, v: Srv, was: Server, s: Server, c: nat, pushed: bool,
               view: map<Key, set<nat>>, clock: int, q: seq<Down>, ms: seq<Down>)
    requires |place| == |log| && DownstreamAt(log, place, view, clock, q, was)
    requires FreshServer(cfg, log, place, v, s) && OwnKeys(cfg, v, s)
    requires SameRows(was, s) && s.dirty == was.dirty && was.subs <= s.subs
    requires cfg.push ==> CoherentView(was, c, EndView(view, q))
    requires AllCurrent(cfg, v, s, c, ms) && (pushed ==> cfg.push)
    ensures var q' := q + (ms + if pushed then [s.PushTo(c)] else []);
      && DownstreamAt(log, place, view, clock, q', Final(s, pushed))
      && (cfg.push ==> CoherentView(Final(s, pushed), c, EndView(view, q')))
  {
    SameView(was, s, c, EndView(view, q));
    hide FreshServer, OwnKeys, AllCurrent, Good, EndClock, EndView, CoherentView;
    EmitOne(cfg, log, place, v, s, c, pushed, view, clock, q, ms);
  }

  lemma EmitDownstream(cfg: Config, st: State, v: Srv, s: Server, pushed: bool, replies: nat -> seq<Down>,
                       down': map<(nat, Srv), seq<Down>>)
    requires |st.place| == |st.log| && cfg.HasServer(v)
    requires Downstream(cfg, st.log, st.place, st.pRow, st.seen, st.down, st.srv)
    requires Coherent(cfg, st.pRow, st.down, st.srv)
    requires FreshServer(cfg, st.log, st.place, v, s) && OwnKeys(cfg, v, s)
    requires SameRows(SrvOf(cfg, st.srv, v), s) && s.dirty == SrvOf(cfg, st.srv, v).dirty
    requires SrvOf(cfg, st.srv, v).subs <= s.subs
    requires Emits(cfg, v, s, pushed, replies, st.down, down')
    ensures Downstream(cfg, st.log, st.place, st.pRow, st.seen, down', st.srv[v := Final(s, pushed)])
    ensures Coherent(cfg, st.pRow, down', st.srv[v := Final(s, pushed)])
  {
    hide FreshServer, OwnKeys, AllCurrent, ViewOf, Good, EndClock, EndView, SrvOf, DownstreamAt, CoherentView, Queue,
         ClockAt, SameRows, Final;
    var srv' := st.srv[v := Final(s, pushed)];
    SrvSet(cfg, st.srv, v, Final(s, pushed));
    forall c: nat, u | c < |cfg.threads| && cfg.HasServer(u)
      ensures DownstreamAt(st.log, st.place, ViewOf(cfg, st.pRow, c, u), ClockAt(st.seen, c, u), Queue(down', c, u),
                           SrvOf(cfg, srv', u))
      ensures cfg.push ==> CoherentView(SrvOf(cfg, srv', u), c,
                                        EndView(ViewOf(cfg, st.pRow, c, u), Queue(down', c, u)))
    {
      var view, clock, q := ViewOf(cfg, st.pRow, c, u), ClockAt(st.seen, c, u), Queue(st.down, c, u);
      assert DownstreamAt(st.log, st.place, view, clock, q, SrvOf(cfg, st.srv, u));
      assert cfg.push ==> CoherentView(SrvOf(cfg, st.srv, u), c, EndView(view, q));
      if u == v {
        assert Queue(down', c, v) == q + (replies(c) + if pushed then [s.PushTo(c)] else []);
        EmitAt(cfg, st.log, st.place, v, SrvOf(cfg, st.srv, v), s, c, pushed, view, clock, q, replies(c));
      }
    }
  }

  lemma SameView(s: Server, s': Server, c: nat, view: map<Key, set<nat>>)
    requires SameRows(s, s') && s'.dirty == s.dirty && s.subs <= s'.subs
    ensures CoherentView(s, c, view) ==> CoherentView(s', c, view)
  {
  }

  lemma EmitCopies(cfg: Config, st: State, v: Srv, s: Server, pushed: bool, replies: nat -> seq<Down>,
                   down': map<(nat, Srv), seq<Down>>)
    requires |st.place| == |st.log| && cfg.HasServer(v) && Copies(cfg, st.log, st.place, st.bg, st.down)
    requires ServerRows(cfg, st.log, st.place, st.srv) && ServerCells(cfg, st.log, st.srv)
    requires Network(cfg, st.bg, st.up, st.srv)
    requires SameRows(SrvOf(cfg, st.srv, v), s) && OwnKeys(cfg, v, s)
    requires Emits(cfg, v, s, pushed, replies, st.down, down')
    ensures Copies(cfg, st.log, st.place, st.bg, down')
  {
    hide ServerRows, ServerCells, OwnKeys, DownOk, Network, AllCurrent, SameRows, Queue, SrvOf, BgOf;
    forall c: nat, u, n | c < |cfg.threads| && cfg.HasServer(u) && 0 <= n < |Queue(down', c, u)|
      ensures DownOk(cfg, st.log, st.place, c, u, |BgOf(st.bg, c, u.chan).saved|, Queue(down', c, u)[n])
    {
      var before, upto := |Queue(st.down, c, u)|, |BgOf(st.bg, c, u.chan).saved|;
      if u == v && before <= n {
        LinkBound(cfg, st.bg, st.up, st.srv, c, v);
        EmittedOk(cfg, st.log, st.place, st.srv, c, v, s, upto, pushed, replies(c), n - before);
      } else {
        assert DownOk(cfg, st.log, st.place, c, u, upto, Queue(st.down, c, u)[n]);
      }
    }
  }

  lemma LinkBound(cfg: Config, bg: map<(nat, nat), Bg>, up: map<(nat, Srv), seq<Up>>, srv: map<Srv, Server>,
                  c: nat, v: Srv)
    requires Network(cfg, bg, up, srv) && c < |cfg.threads| && cfg.HasServer(v)
    ensures SrvOf(cfg, srv, v).Ver(c) <= |BgOf(bg, c, v.chan).saved|
  {
    assert Link(cfg, c, v, BgOf(bg, c, v.chan), SrvOf(cfg, srv, v), Queue(up, c, v));
  }

  lemma EmittedOk(cfg: Config, log: seq<Upd>, place: seq<Place>, srv: map<Srv, Server>, c: nat, v: Srv, s: Server,
                  upto: nat, pushed: bool, ms: seq<Down>, n: nat)
    requires |place| == |log| && ServerRows(cfg, log, place, srv) && ServerCells(cfg, log, srv)
    requires cfg.HasServer(v) && SameRows(SrvOf(cfg, srv, v), s) && OwnKeys(cfg, v, s)
    requires SrvOf(cfg, srv, v).Ver(c) <= upto
    requires AllCurrent(cfg, v, s, c, ms) && (pushed ==> cfg.push)
    requires n < |ms + if pushed then [s.PushTo(c)] else []|
    ensures DownOk(cfg, log, place, c, v, upto, (ms + if pushed then [s.PushTo(c)] else [])[n])
  {
    hide ServerRows, ServerCells, CopyOk;
    if n < |ms| {
      assert Current(cfg, v, s, c, ms[n]);
      CopyNow(cfg, log, place, srv, c, v, ms[n].key, upto);
    } else {
      var m := s.PushTo(c);
      forall k | k in m.rows ensures Home(cfg, k) == v && CopyOk(log, place, c, k, m.ver, upto, m.rows[k]) {
        assert (c, k) in s.subs;
        CopyNow(cfg, log, place, srv, c, v, k, upto);
      }
    }
  }

  /** Answering and pushing keep everything. */
  lemma EmitKeeps(cfg: Config, st: State, v: Srv, s: Server, pushed: bool, replies: nat -> seq<Down>,
                  down': map<(nat, Srv), seq<Down>>)
    requires Inv(cfg, st) && cfg.HasServer(v)
    requires SameRows(SrvOf(cfg, st.srv, v), s) && s.dirty == SrvOf(cfg, st.srv, v).dirty
    requires SrvOf(cfg, st.srv, v).subs <= s.subs && OwnKeys(cfg, v, s)
    requires Emits(cfg, v, s, pushed, replies, st.down, down')
    ensures Inv(cfg, st.(srv := st.srv[v := Final(s, pushed)], down := down'))
  {
    ServerFresh(cfg, st, v);
    hide LogOk, ThreadOplogs, TableOplogs, Cancelled, Gathered, Batches, ServerRows, Clocks, Bgs, Flushes, Coverage,
         InTime, Network, Copies, PRows, Downstream, ServerKeys, Coherent, RowsFresh, SysClocks, ThreadRows, CellsOk,
         ServerCells, OwnKeys, Emits, FreshServer, SameRows;
    SameFresh(cfg, st.log, st.place, v, SrvOf(cfg, st.srv, v), s);
    EmitDownstream(cfg, st, v, s, pushed, replies, down');
    EmitCopies(cfg, st, v, s, pushed, replies, down');
    var s' := Final(s, pushed);
    FinalSame(cfg, v, SrvOf(cfg, st.srv, v), s, pushed);
    SameServerRows(cfg, st.log, st.place, st.srv, v, s');
    SameServerLinks(cfg, st.bg, st.up, st.srv, v, s');
    SameKeys(cfg, st.srv, v, s');
  }

  lemma SameFresh(cfg: Config, log: seq<Upd>, place: seq<Place>, v: Srv, s: Server, s': Server)
    requires |place| == |log| && FreshServer(cfg, log, place, v, s) && SameRows(s, s')
    ensures FreshServer(cfg, log, place, v, s')
  {
    hide Fresh;
    forall k | Home(cfg, k) == v ensures Fresh(log, place, k, s'.RowAt(k).ids, s'.vc.min) {
      assert Fresh(log, place, k, s.RowAt(k).ids, s.vc.min);
    }
  }

  lemma FinalSame(cfg: Config, v: Srv, was: Server, s: Server, pushed: bool)
    requires SameRows(was, s) && OwnKeys(cfg, v, s)
    ensures SameRows(was, Final(s, pushed)) && OwnKeys(cfg, v, Final(s, pushed))
  {
    var s' := Final(s, pushed);
    forall k ensures s'.RowAt(k) == s.RowAt(k) {
    }
    forall c ensures s'.Ver(c) == s.Ver(c) {
    }
  }

  lemma SameKeys(cfg: Config, srv: map<Srv, Server>, v: Srv, s: Server)
    requires ServerKeys(cfg, srv) && OwnKeys(cfg, v, s)
    ensures ServerKeys(cfg, srv[v := s])
  {
    hide OwnKeys;
    SrvSet(cfg, srv, v, s);
  }
}
