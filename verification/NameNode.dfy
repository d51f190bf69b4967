/** The name node: it has every table created on every server, and tells the clients when all tables exist. */
module NameNodes {

  /** How far a table is: the clients that were answered, the servers that replied, and who is to be answered later. */
  datatype CreateTableInfo = CreateTableInfo(clientsReplied: nat, serversReplied: nat, toReply: seq<int>)

  const NO_INFO := CreateTableInfo(0, 0, [])

  datatype Out = Announce(table: int) | Answer(bg: int, table: int) | AllCreated

  datatype Conf = Conf(clients: nat, servers: nat, tables: nat)

  type Tables = map<int, CreateTableInfo>

  predicate HaveCreatedAll(conf: Conf, ts: Tables) {
    conf.tables <= |ts| && forall t :: t in ts ==> ts[t].clientsReplied == conf.clients
  }

  function InfoOf(ts: Tables, t: int): CreateTableInfo {
    if t in ts then ts[t] else NO_INFO
  }

  function Last(conf: Conf, ts: Tables): seq<Out> {
    if HaveCreatedAll(conf, ts) then [AllCreated] else []
  }

  function Answers(bgs: seq<int>, t: int): seq<Out> {
    seq(|bgs|, i requires 0 <= i < |bgs| => Answer(bgs[i], t))
  }

  /** A client asks for a table: the first who asks has it announced to the servers. */
  function OnCreate(conf: Conf, ts: Tables, bg: int, t: int): (Tables, seq<Out>) {
    var info := InfoOf(ts, t);
    var first := if t in ts then [] else [Announce(t)];
    if info.serversReplied == conf.servers then
      var now := ts[t := info.(clientsReplied := info.clientsReplied + 1)];
      (now, first + [Answer(bg, t)] + Last(conf, now))
    else
      (ts[t := info.(toReply := info.toReply + [bg])], first)
  }

  /** A server has the table: after the last server, everybody who waits is answered. */
  function OnReply(conf: Conf, ts: Tables, t: int): (Tables, seq<Out>) {
    var info := InfoOf(ts, t);
    var one := info.(serversReplied := info.serversReplied + 1);
    if one.serversReplied == conf.servers then
      var now := ts[t := CreateTableInfo(info.clientsReplied + |info.toReply|, one.serversReplied, [])];
      (now, Answers(info.toReply, t) + Last(conf, now))
    else
      (ts[t := one], [])
  }

  class NameNodeThread {
    const conf: Conf
    var createTableMap: Tables
    var sent: seq<Out>

    constructor (conf: Conf)
      ensures this.conf == conf && createTableMap == map[] && sent == []
    {
      this.conf, createTableMap, sent := conf, map[], [];
    }

    method HaveCreatedAllTables() returns (all: bool)
      ensures all <==> HaveCreatedAll(conf, createTableMap)
    {
      if |createTableMap| < conf.tables {
        return false;
      }
      var left := createTableMap.Keys;
      while exists t :: t in left
        invariant left <= createTableMap.Keys
        invariant forall t :: t in createTableMap && t !in left ==> createTableMap[t].clientsReplied == conf.clients
        decreases |left|
      {
        var t :| t in left;
        left := left - {t};
        if createTableMap[t].clientsReplied != conf.clients {
          return false;
        }
      }
      return true;
    }

    /** SendCreatedAllTablesMsg, if that is so. */
    method SendIfAll()
      modifies this`sent
      ensures sent == old(sent) + Last(conf, createTableMap)
    {
      var all := HaveCreatedAllTables();
      if all {
        sent := sent + [AllCreated];
      } else {
        assert sent == sent + [];
      }
    }

    method HandleCreateTable(bg: int, t: int)
      modifies this
      ensures (createTableMap, sent) == (OnCreate(conf, old(createTableMap), bg, t).0,
                                         old(sent) + OnCreate(conf, old(createTableMap), bg, t).1)
    {
      ghost var was, out := createTableMap, sent;
      if t !in createTableMap {
        createTableMap := createTableMap[t := NO_INFO];
        sent := sent + [Announce(t)];
      }
      var info := createTableMap[t];
      if info.serversReplied == conf.servers {
        sent := sent + [Answer(bg, t)];
        createTableMap := createTableMap[t := info.(clientsReplied := info.clientsReplied + 1)];
        assert createTableMap == OnCreate(conf, was, bg, t).0;
        SendIfAll();
      } else {
        createTableMap := createTableMap[t := info.(toReply := info.toReply + [bg])];
        assert createTableMap == OnCreate(conf, was, bg, t).0;
      }
      assert sent == out + OnCreate(conf, was, bg, t).1;
    }

    /** Answers everybody who waits for the table, in the order in which they asked. */
    method AnswerWaiting(t: int)
      requires t in createTableMap
      modifies this
      ensures var info := old(createTableMap)[t];
        && sent == old(sent) + Answers(info.toReply, t)
        && createTableMap == old(createTableMap)[t := info.(toReply := [],
                                                            clientsReplied := info.clientsReplied + |info.toReply|)]
    {
      hide Answers;
      ghost var was := createTableMap[t];
      AnswersNone(t);
      var info := createTableMap[t];
      while info.toReply != []
        invariant createTableMap == old(createTableMap)[t := info] && info.serversReplied == was.serversReplied
        invariant info.clientsReplied + |info.toReply| == was.clientsReplied + |was.toReply|
        invariant sent + Answers(info.toReply, t) == old(sent) + Answers(was.toReply, t)
        decreases |info.toReply|
      {
        AnswersFirst(info.toReply, t);
        assert (sent + [Answer(info.toReply[0], t)]) + Answers(info.toReply[1..], t)
            == sent + ([Answer(info.toReply[0], t)] + Answers(info.toReply[1..], t));
        sent := sent + [Answer(info.toReply[0], t)];
        info := info.(toReply := info.toReply[1..], clientsReplied := info.clientsReplied + 1);
        createTableMap := createTableMap[t := info];
      }
      assert sent == sent + Answers([], t);
    }

    method HandleCreateTableReply(t: int)
      modifies this
      ensures (createTableMap, sent) == (OnReply(conf, old(createTableMap), t).0,
                                         old(sent) + OnReply(conf, old(createTableMap), t).1)
    {
      hide Answers, HaveCreatedAll;
      ghost var was, out := createTableMap, sent;
      var info := if t in createTableMap then createTableMap[t] else NO_INFO;
      info := info.(serversReplied := info.serversReplied + 1);
      createTableMap := createTableMap[t := info];
      if info.serversReplied == conf.servers {
        AnswerWaiting(t);
        assert createTableMap == OnReply(conf, was, t).0;
        SendIfAll();
        assert sent == out + OnReply(conf, was, t).1;
      } else {
        assert sent == out + [];
      }
    }
  }

  lemma AnswersNone(t: int)
    ensures Answers([], t) == []
  {
  }

  lemma AnswersFirst(bgs: seq<int>, t: int)
    requires bgs != []
    ensures Answers(bgs, t) == [Answer(bgs[0], t)] + Answers(bgs[1..], t)
  {
  }

  // ---- Whole runs ----

  datatype Event = Create(bg: int, table: int) | Reply(table: int)

  datatype State = State(ts: Tables, sent: seq<Out>, asked: map<int, seq<int>>) {
    /** Who asked for the table, in order. */
    function Asked(t: int): seq<int> {
      if t in asked then asked[t] else []
    }
  }

  const INIT := State(map[], [], map[])

  function Step(conf: Conf, s: State, e: Event): State {
    match e
    case Create(bg, t) =>
      var r := OnCreate(conf, s.ts, bg, t);
      State(r.0, s.sent + r.1, s.asked[t := s.Asked(t) + [bg]])
    case Reply(t) =>
      var r := OnReply(conf, s.ts, t);
      State(r.0, s.sent + r.1, s.asked)
  }

  function Run(conf: Conf, es: seq<Event>): State {
    if es == [] then INIT else Step(conf, Run(conf, es[..|es| - 1]), es[|es| - 1])
  }

  /** Each of the clients asks once for each table, there are as many tables as configured, and each server replies
      once to each announcement. */
  predicate Fair(conf: Conf, s: State, e: Event) {
    match e
    case Create(bg, t) =>
      bg !in s.Asked(t) && |s.Asked(t)| < conf.clients && (t in s.ts || |s.ts| < conf.tables)
    case Reply(t) => t in s.ts && s.ts[t].serversReplied < conf.servers
  }

  predicate AllFair(conf: Conf, es: seq<Event>) {
    es == [] || (var n := |es| - 1; AllFair(conf, es[..n]) && Fair(conf, Run(conf, es[..n]), es[n]))
  }

  /** The clients that were sent an answer for the table, in order. */
  function AnsweredFor(out: seq<Out>, t: int): seq<int> {
    if out == [] then []
    else
      var o := out[|out| - 1];
      AnsweredFor(out[..|out| - 1], t) + if o.Answer? && o.table == t then [o.bg] else []
  }

  function Announced(out: seq<Out>, t: int): nat {
    if out == [] then 0 else Announced(out[..|out| - 1], t) + if out[|out| - 1] == Announce(t) then 1 else 0
  }

  function Broadcasts(out: seq<Out>): nat {
    if out == [] then 0 else Broadcasts(out[..|out| - 1]) + if out[|out| - 1].AllCreated? then 1 else 0
  }

  lemma {:induction false} OutConcat(a: seq<Out>, b: seq<Out>)
    ensures Broadcasts(a + b) == Broadcasts(a) + Broadcasts(b)
    ensures forall t :: AnsweredFor(a + b, t) == AnsweredFor(a, t) + AnsweredFor(b, t)
    ensures forall t :: Announced(a + b, t) == Announced(a, t) + Announced(b, t)
  {
    if b == [] {
      assert a + b == a;
    } else {
      OutConcat(a, b[..|b| - 1]);
      assert (a + b)[..|a + b| - 1] == a + b[..|b| - 1];
    }
  }

  lemma {:induction false} OutAnswers(bgs: seq<int>, t: int)
    ensures Broadcasts(Answers(bgs, t)) == 0 && forall u :: Announced(Answers(bgs, t), u) == 0
    ensures forall u :: AnsweredFor(Answers(bgs, t), u) == if u == t then bgs else []
  {
    if bgs != [] {
      var n := |bgs| - 1;
      OutAnswers(bgs[..n], t);
      assert Answers(bgs, t)[..n] == Answers(bgs[..n], t);
    }
  }

  lemma OutOne(o: Out)
    ensures Broadcasts([o]) == if o.AllCreated? then 1 else 0
    ensures forall t :: AnsweredFor([o], t) == if o.Answer? && o.table == t then [o.bg] else []
    ensures forall t :: Announced([o], t) == if o == Announce(t) then 1 else 0
  {
    assert [o][..0] == [];
  }

  /** What holds of one table after every run. */
  ghost predicate TableOk(conf: Conf, s: State, t: int) {
    var info, answered := InfoOf(s.ts, t), AnsweredFor(s.sent, t);
    && (t in s.ts <==> s.Asked(t) != []) && Announced(s.sent, t) == (if t in s.ts then 1 else 0)
    && answered + info.toReply == s.Asked(t) && |s.Asked(t)| <= conf.clients
    && info.clientsReplied == |answered| && info.serversReplied <= conf.servers
    && (if info.serversReplied == conf.servers then info.toReply == [] else answered == [])
  }

  /** All clients were answered for as many tables as configured. */
  predicate Done(conf: Conf, s: State) {
    0 < conf.tables && HaveCreatedAll(conf, s.ts)
  }

  ghost predicate Inv(conf: Conf, s: State) {
    && (forall t :: TableOk(conf, s, t)) && |s.ts| <= conf.tables
    && Broadcasts(s.sent) == if Done(conf, s) then 1 else 0
  }

  /** What a request for table t sends as regards table u. */
  lemma CreateSends(conf: Conf, ts: Tables, bg: int, t: int, u: int)
    ensures var sent := OnCreate(conf, ts, bg, t).1;
      && AnsweredFor(sent, u) == (if u == t && InfoOf(ts, t).serversReplied == conf.servers then [bg] else [])
      && Announced(sent, u) == if u == t && t !in ts then 1 else 0
  {
    hide AnsweredFor, Announced, Broadcasts, HaveCreatedAll, InfoOf;
    var first := if t in ts then [] else [Announce(t)];
    OutConcat(first + [Answer(bg, t)], Last(conf, OnCreate(conf, ts, bg, t).0));
    OutConcat(first, [Answer(bg, t)]);
    OutOne(Announce(t));
    OutOne(Answer(bg, t));
    OutOne(AllCreated);
    OutNone();
  }

  lemma CreateTables(conf: Conf, s: State, bg: int, t: int, u: int)
    requires TableOk(conf, s, u) && TableOk(conf, s, t) && Fair(conf, s, Create(bg, t))
    ensures TableOk(conf, Step(conf, s, Create(bg, t)), u)
  {
    hide AnsweredFor, Announced, Broadcasts, HaveCreatedAll, Answers, Last;
    OutConcat(s.sent, OnCreate(conf, s.ts, bg, t).1);
    CreateSends(conf, s.ts, bg, t, u);
  }

  lemma OutNone()
    ensures Broadcasts([]) == 0 && (forall t :: AnsweredFor([], t) == []) && forall t :: Announced([], t) == 0
  {
  }

  lemma ReplyTables(conf: Conf, s: State, t: int, u: int)
    requires TableOk(conf, s, u) && TableOk(conf, s, t) && Fair(conf, s, Reply(t))
    ensures TableOk(conf, Step(conf, s, Reply(t)), u)
  {
    hide AnsweredFor, Announced, Broadcasts, HaveCreatedAll;
    var r := OnReply(conf, s.ts, t);
    OutConcat(s.sent, r.1);
    OutConcat(Answers(s.ts[t].toReply, t), Last(conf, r.0));
    OutAnswers(s.ts[t].toReply, t);
    OutOne(AllCreated);
    OutNone();
  }

  /** Before a fair event the tables are not done; so the check after it is the first to find them done. */
  lemma NotDoneYet(conf: Conf, s: State, e: Event)
    requires Inv(conf, s) && Fair(conf, s, e)
    ensures !Done(conf, s) && 0 < conf.tables
  {
    hide AnsweredFor, Announced, Broadcasts;
    assert TableOk(conf, s, e.table);
  }

  lemma StepKeeps(conf: Conf, s: State, e: Event)
    requires Inv(conf, s) && Fair(conf, s, e)
    ensures Inv(conf, Step(conf, s, e))
  {
    hide AnsweredFor, Announced, Broadcasts, TableOk;
    NotDoneYet(conf, s, e);
    var next := Step(conf, s, e);
    forall u ensures TableOk(conf, next, u) {
      if e.Create? {
        CreateTables(conf, s, e.bg, e.table, u);
      } else {
        ReplyTables(conf, s, e.table, u);
      }
    }
    BroadcastNext(conf, s, e);
  }

  /** The clients are told after an event for a table that all servers have, if then all tables are there. */
  lemma BroadcastCount(conf: Conf, s: State, e: Event)
    ensures var next := Step(conf, s, e);
      Broadcasts(next.sent) == Broadcasts(s.sent)
        + if InfoOf(next.ts, e.table).serversReplied == conf.servers && HaveCreatedAll(conf, next.ts) then 1 else 0
  {
    hide AnsweredFor, Announced, Broadcasts, HaveCreatedAll, Answers;
    var t := e.table;
    OutOne(AllCreated);
    OutOne(Announce(t));
    OutNone();
    if e.Create? {
      var r := OnCreate(conf, s.ts, e.bg, t);
      var first := if t in s.ts then [] else [Announce(t)];
      OutConcat(s.sent, r.1);
      OutConcat(first + [Answer(e.bg, t)], Last(conf, r.0));
      OutConcat(first, [Answer(e.bg, t)]);
      OutOne(Answer(e.bg, t));
    } else {
      var r, waiting := OnReply(conf, s.ts, t), InfoOf(s.ts, t).toReply;
      OutConcat(s.sent, r.1);
      OutConcat(Answers(waiting, t), Last(conf, r.0));
      OutAnswers(waiting, t);
    }
  }

  lemma BroadcastNext(conf: Conf, s: State, e: Event)
    requires Inv(conf, s) && Fair(conf, s, e) && !Done(conf, s) && 0 < conf.tables
    ensures var next := Step(conf, s, e);
      |next.ts| <= conf.tables && Broadcasts(next.sent) == if Done(conf, next) then 1 else 0
  {
    hide AnsweredFor, Announced, Broadcasts;
    BroadcastCount(conf, s, e);
    var t, next := e.table, Step(conf, s, e);
    assert TableOk(conf, s, t);
    assert next.ts.Keys == s.ts.Keys + {t};
    if next.ts[t].serversReplied != conf.servers {
      assert next.ts[t].clientsReplied == 0;
    }
  }

  /** In every fair run: each table is announced once; the clients that asked for it are answered in the order in
      which they asked, each once, all of them once every server has the table and none before; and the clients are
      told once that all tables exist, as soon as that is so. */
  lemma {:induction false} EveryRunKeeps(conf: Conf, es: seq<Event>)
    requires AllFair(conf, es)
    ensures Inv(conf, Run(conf, es))
  {
    if es == [] {
      assert INIT.Asked(0) == [];
    } else {
      EveryRunKeeps(conf, es[..|es| - 1]);
      StepKeeps(conf, Run(conf, es[..|es| - 1]), es[|es| - 1]);
    }
  }

  /** Every client has asked for as many tables as configured, and every server has replied for each. */
  predicate Complete(conf: Conf, s: State) {
    && |s.ts| == conf.tables
    && forall t :: t in s.ts ==> |s.Asked(t)| == conf.clients && s.ts[t].serversReplied == conf.servers
  }

  /** At the end of a fair run everybody was answered; and the clients were told that all tables exist exactly if there
      is a table at all. Without one, they wait in vain. */
  lemma ToldIff(conf: Conf, es: seq<Event>)
    requires AllFair(conf, es) && Complete(conf, Run(conf, es))
    ensures var s := Run(conf, es);
      && (forall t :: t in s.ts ==> AnsweredFor(s.sent, t) == s.Asked(t))
      && (Broadcasts(s.sent) == 1 <==> 0 < conf.tables) && Broadcasts(s.sent) <= 1
  {
    hide AnsweredFor, Announced, Broadcasts, Run, AllFair;
    var s := Run(conf, es);
    EveryRunKeeps(conf, es);
    forall t | t in s.ts ensures AnsweredFor(s.sent, t) == s.Asked(t) && s.ts[t].clientsReplied == conf.clients {
      assert TableOk(conf, s, t);
    }
  }

  lemma {:induction false} AnsweredCount(out: seq<Out>, t: int, bg: int)
    ensures multiset(AnsweredFor(out, t))[bg] == multiset(out)[Answer(bg, t)]
  {
    if out != [] {
      var init, last := out[..|out| - 1], out[|out| - 1];
      AnsweredCount(init, t, bg);
      assert out == init + [last];
      assert multiset(out) == multiset(init) + multiset{last};
    }
  }

  lemma {:induction false} AnnouncedCount(out: seq<Out>, t: int)
    ensures Announced(out, t) == multiset(out)[Announce(t)]
  {
    if out != [] {
      var init, last := out[..|out| - 1], out[|out| - 1];
      AnnouncedCount(init, t);
      assert out == init + [last];
      assert multiset(out) == multiset(init) + multiset{last};
    }
  }

  lemma {:induction false} BroadcastsCount(out: seq<Out>)
    ensures Broadcasts(out) == multiset(out)[AllCreated]
  {
    if out != [] {
      var init, last := out[..|out| - 1], out[|out| - 1];
      BroadcastsCount(init);
      assert out == init + [last];
      assert multiset(out) == multiset(init) + multiset{last};
    }
  }

  lemma AskedNext(conf: Conf, s: State, e: Event, t: int)
    ensures Step(conf, s, e).Asked(t) == if e.Create? && e.table == t then s.Asked(t) + [e.bg] else s.Asked(t)
  {
    hide OnCreate, OnReply;
  }

  lemma {:induction false} AskedCounts(conf: Conf, es: seq<Event>, t: int, bg: int)
    ensures multiset(Run(conf, es).Asked(t))[bg] == multiset(es)[Create(bg, t)]
  {
    hide Step;
    if es == [] {
      assert INIT.Asked(t) == [];
    } else {
      var init, last := es[..|es| - 1], es[|es| - 1];
      AskedCounts(conf, init, t, bg);
      AskedNext(conf, Run(conf, init), last, t);
      assert es == init + [last];
      assert multiset(es) == multiset(init) + multiset{last};
    }
  }

  /** Counted one by one: in a complete fair run every client that asks for a table is sent an answer as often as it
      asks, the table is announced once if anybody asks for it, and the clients are told once if there is a table. */
  lemma AskedIsAnswered(conf: Conf, es: seq<Event>, t: int, bg: int)
    requires AllFair(conf, es) && Complete(conf, Run(conf, es))
    ensures var out := multiset(Run(conf, es).sent);
      && out[Answer(bg, t)] == multiset(es)[Create(bg, t)]
      && out[Announce(t)] <= 1 && (Create(bg, t) in es ==> out[Announce(t)] == 1)
      && out[AllCreated] == if 0 < conf.tables then 1 else 0
  {
    hide AnsweredFor, Announced, Broadcasts, Run, AllFair;
    var s := Run(conf, es);
    EveryRunKeeps(conf, es);
    ToldIff(conf, es);
    AnsweredCount(s.sent, t, bg);
    AnnouncedCount(s.sent, t);
    BroadcastsCount(s.sent);
    AskedCounts(conf, es, t, bg);
    assert TableOk(conf, s, t);
    assert Create(bg, t) in es ==> multiset(es)[Create(bg, t)] > 0;
  }
}
