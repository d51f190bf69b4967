/** No read waits for ever because of the protocol: from every reachable state the other threads, the workers and the
    servers can go on until the read passes. */
module Liveness {
  import opened Rows
  import opened VectorClocks
  import opened ServerSpec
  import opened Protocol
  import opened Invariant
  import ApplySteps
  import Conservation
  import DeliverSteps
  import ReadSteps
  import Safety
  import ServeSteps

  // ---- Continuations ----

  /** The steps can be taken one after the other. */
  ghost predicate Path(cfg: Config, s: State, more: seq<Step>)
    decreases |more|
  {
    more == [] || (Can(cfg, s, more[0]) && Path(cfg, Next(cfg, s, more[0]), more[1..]))
  }

  ghost function End(cfg: Config, s: State, more: seq<Step>): State
    requires Path(cfg, s, more)
    decreases |more|
  {
    if more == [] then s else End(cfg, Next(cfg, s, more[0]), more[1..])
  }

  ghost predicate Goes(cfg: Config, s: State, more: seq<Step>, e: State) {
    Path(cfg, s, more) && End(cfg, s, more) == e
  }

  lemma Stay(cfg: Config, s: State)
    ensures Goes(cfg, s, [], s)
  {
  }

  lemma First(cfg: Config, s: State, step: Step, more: seq<Step>, e: State)
    requires Can(cfg, s, step) && Goes(cfg, Next(cfg, s, step), more, e)
    ensures Goes(cfg, s, [step] + more, e)
  {
    hide Can, Next;
    assert ([step] + more)[1..] == more;
  }

  lemma {:induction false} Then(cfg: Config, s: State, a: seq<Step>, e: State, b: seq<Step>, f: State)
    requires Goes(cfg, s, a, e) && Goes(cfg, e, b, f)
    ensures Goes(cfg, s, a + b, f)
    decreases |a|
  {
    hide Can, Next;
    if a == [] {
      assert a + b == b;
    } else {
      Then(cfg, Next(cfg, s, a[0]), a[1..], e, b, f);
      First(cfg, s, a[0], a[1..] + b, f);
      assert [a[0]] + (a[1..] + b) == a + b;
    }
  }

  lemma {:induction false} RunOn(cfg: Config, steps: seq<Step>, more: seq<Step>, e: State)
    requires Legal(cfg, steps) && Goes(cfg, Run(cfg, steps), more, e)
    ensures Legal(cfg, steps + more) && Run(cfg, steps + more) == e
    decreases |more|
  {
    hide Can, Next;
    if more == [] {
      assert steps + more == steps;
    } else {
      var next := steps + [more[0]];
      assert next[..|next| - 1] == steps;
      RunOn(cfg, next, more[1..], e);
      assert next + more[1..] == steps + more;
    }
  }

  // ---- What else holds in every run ----

  ghost predicate UpToDate(cfg: Config, pc: map<Thread, Pc>, ticks: map<Thread, nat>, posted: map<(nat, nat), nat>,
                           c: nat, p: nat, o: Thread)
  {
    && cfg.HasThread(o) && o.client == c
    && (|| Clock(ticks, o) <= Posted(posted, c, p)
        || (PcOf(pc, o).Posting? && PcOf(pc, o).chan <= p && Clock(ticks, o) <= Posted(posted, c, p) + 1))
  }

  /** A client posts to each worker all the clocks that its slowest thread has reached, but for one that is being
      posted. */
  ghost predicate PostedUp(cfg: Config, pc: map<Thread, Pc>, ticks: map<Thread, nat>, posted: map<(nat, nat), nat>) {
    forall c: nat, p: nat :: cfg.HasBg(c, p) ==> exists o :: UpToDate(cfg, pc, ticks, posted, c, p, o)
  }

  /** The clock of the last push that is on its way, or of the last that was consumed. */
  function LastPush(clock: int, q: seq<Down>): int
    decreases |q|
  {
    if q == [] then clock else LastPush(if q[0].Push? then q[0].clock else clock, q[1..])
  }

  /** Every client was pushed the minimum of every server. */
  ghost predicate PushedUp(cfg: Config, down: map<(nat, Srv), seq<Down>>, pushClock: map<(nat, Srv), int>,
                           srv: map<Srv, Server>)
  {
    cfg.push ==>
      forall c: nat, v :: c < |cfg.threads| && cfg.HasServer(v) ==>
        SrvOf(cfg, srv, v).vc.min <= LastPush(ClockAt(pushClock, c, v), Queue(down, c, v))
  }

  ghost predicate Good(cfg: Config, s: State) {
    && Inv(cfg, s) && PostedUp(cfg, s.pc, s.ticks, s.posted) && PushedUp(cfg, s.down, s.pushClock, s.srv)
  }

  lemma InitGood(cfg: Config)
    ensures Good(cfg, INIT)
  {
    hide Inv;
    InitInv(cfg);
    forall c: nat, p: nat | cfg.HasBg(c, p)
      ensures exists o :: UpToDate(cfg, INIT.pc, INIT.ticks, INIT.posted, c, p, o)
    {
      assert UpToDate(cfg, INIT.pc, INIT.ticks, INIT.posted, c, p, Thread(c, 0));
    }
  }

  lemma {:induction false} LastPushAppend(clock: int, q: seq<Down>, more: seq<Down>)
    ensures LastPush(clock, q + more) == LastPush(LastPush(clock, q), more)
    decreases |q|
  {
    if q == [] {
      assert q + more == more;
    } else {
      LastPushAppend(if q[0].Push? then q[0].clock else clock, q[1..], more);
      assert (q + more)[1..] == q[1..] + more;
    }
  }

  lemma {:induction false} LastPushReplies(clock: int, q: seq<Down>)
    requires forall i :: 0 <= i < |q| ==> q[i].Reply?
    ensures LastPush(clock, q) == clock
    decreases |q|
  {
    if q != [] {
      LastPushReplies(clock, q[1..]);
    }
  }

  /** What a server sends keeps its clients up to date. */
  lemma OutPushes(s: Server, c: int, isClock: bool, bgClock: int, rows: map<Key, Cell>, to: int, clock: int,
                  q: seq<Down>)
    requires s.vc.min <= LastPush(clock, q)
    ensures s.OnOpLog(true, c, isClock, bgClock, rows).vc.min
         <= LastPush(clock, q + s.OutTo(true, c, isClock, bgClock, rows, to))
  {
    hide Server.Clocked, Server.RowAt;
    var m := s.Clocked(c, isClock, bgClock, rows);
    LastPushAppend(clock, q, s.OutTo(true, c, isClock, bgClock, rows, to));
    if m.vc.min != s.vc.min {
      var now := LastPush(clock, q);
      LastPushReplies(now, m.RepliesTo(to));
      LastPushAppend(now, m.RepliesTo(to), [m.Fulfil(true).PushTo(to)]);
      assert LastPush(now, [m.Fulfil(true).PushTo(to)]) == m.vc.min;
    }
  }

  // ---- Every step keeps it ----

  /** The threads are where they were. */
  ghost predicate SameThreads(s: State, e: State) {
    e.pc == s.pc && e.ticks == s.ticks && e.posted == s.posted && e.clock == s.clock
  }

  ghost predicate SameServers(s: State, e: State) {
    e.down == s.down && e.pushClock == s.pushClock && e.srv == s.srv
  }

  predicate OfWorker(step: Step) {
    || step.BgStart? || step.BgTake? || step.BgErase? || step.BgPack? || step.BgSend? || step.BgFinish?
    || step.BgRequest?
  }

  predicate InClock(step: Step) {
    step.ClockBegin? || step.EndFlush? || step.AddIndex? || step.TickClock? || step.Post?
  }

  lemma WorkerSame(cfg: Config, s: State, step: Step)
    requires Can(cfg, s, step) && OfWorker(step)
    ensures SameThreads(s, Next(cfg, s, step)) && SameServers(s, Next(cfg, s, step))
  {
    hide Can, SameThreads, SameServers;
    if step.BgStart? || step.BgTake? || step.BgErase? || step.BgPack? {
      GatherSame(cfg, s, step);
    } else {
      SendSame(cfg, s, step);
    }
  }

  lemma GatherSame(cfg: Config, s: State, step: Step)
    requires Can(cfg, s, step) && (step.BgStart? || step.BgTake? || step.BgErase? || step.BgPack?)
    ensures SameThreads(s, Next(cfg, s, step)) && SameServers(s, Next(cfg, s, step))
  {
    hide Can;
  }

  lemma SendSame(cfg: Config, s: State, step: Step)
    requires Can(cfg, s, step) && (step.BgSend? || step.BgFinish? || step.BgRequest?)
    ensures SameThreads(s, Next(cfg, s, step)) && SameServers(s, Next(cfg, s, step))
  {
    hide Can;
  }

  lemma ClientSame(cfg: Config, s: State, step: Step)
    requires Can(cfg, s, step) && !OfWorker(step) && !InClock(step) && !step.Serve? && !step.Deliver?
    ensures SameThreads(s, Next(cfg, s, step)) && SameServers(s, Next(cfg, s, step))
  {
    hide Can;
  }

  lemma ClockSame(cfg: Config, s: State, step: Step)
    requires Can(cfg, s, step) && InClock(step)
    ensures SameServers(s, Next(cfg, s, step))
  {
    hide Can;
  }

  lemma GoodStep(cfg: Config, s: State, step: Step)
    requires Good(cfg, s) && Can(cfg, s, step)
    ensures Good(cfg, Next(cfg, s, step))
  {
    hide Inv, PostedUp, PushedUp;
    Safety.StepKeeps(cfg, s, step);
    if InClock(step) {
      ClockSame(cfg, s, step);
      PostedUpStep(cfg, s, step);
    } else if OfWorker(step) {
      WorkerSame(cfg, s, step);
    } else if step.Serve? {
      ServePushes(cfg, s, step.c, step.v);
    } else if step.Deliver? {
      DeliverPushes(cfg, s, step.c, step.v);
    } else {
      ClientSame(cfg, s, step);
    }
  }

  /** Only the queues and the servers may differ. */
  ghost predicate OnlyQueues(s: State, e: State) {
    e == s.(up := e.up, srv := e.srv, down := e.down)
  }

  lemma ServeOnly(cfg: Config, s: State, c: nat, v: Srv)
    requires Queue(s.up, c, v) != []
    ensures OnlyQueues(s, DoServe(cfg, s, c, v))
    ensures DoServe(cfg, s, c, v).up == s.up[(c, v) := Queue(s.up, c, v)[1..]]
  {
    hide Server.OnRowRequest, Server.OnOpLog, Server.OutTo, SrvOf, Queue, OnlyQueues, DoServe;
    var m := Queue(s.up, c, v)[0];
    if m.Ask? {
      AskOnly(cfg, s, c, v, m.key, m.clock);
    } else {
      BatchOnly(cfg, s, c, v, m);
    }
  }

  lemma AskOnly(cfg: Config, s: State, c: nat, v: Srv, key: Key, clock: int)
    requires Queue(s.up, c, v) != [] && Queue(s.up, c, v)[0] == Ask(key, clock)
    ensures OnlyQueues(s, DoServe(cfg, s, c, v))
    ensures DoServe(cfg, s, c, v).up == s.up[(c, v) := Queue(s.up, c, v)[1..]]
  {
    hide Server.OnRowRequest, Server.OnOpLog, Server.OutTo, SrvOf, Queue;
  }

  lemma BatchOnly(cfg: Config, s: State, c: nat, v: Srv, m: Up)
    requires Queue(s.up, c, v) != [] && Queue(s.up, c, v)[0] == m && m.Batch?
    ensures OnlyQueues(s, DoServe(cfg, s, c, v))
    ensures DoServe(cfg, s, c, v).up == s.up[(c, v) := Queue(s.up, c, v)[1..]]
  {
    hide Server.OnRowRequest, Server.OnOpLog, Server.OutTo, SrvOf, Queue;
  }

  lemma QueuesSame(s: State, e: State)
    requires OnlyQueues(s, e)
    ensures SameThreads(s, e) && e.pushClock == s.pushClock && e.bg == s.bg && e.pRow == s.pRow
    ensures e.sysClock == s.sysClock
  {
  }

  lemma ServeAskIs(cfg: Config, s: State, c: nat, v: Srv, key: Key, clock: int)
    requires Queue(s.up, c, v) != [] && Queue(s.up, c, v)[0] == Ask(key, clock)
    ensures var r, e := SrvOf(cfg, s.srv, v).OnRowRequest(cfg.push, c, key, clock), DoServe(cfg, s, c, v);
      e.srv == s.srv[v := r.0] && e.down == s.down[(c, v) := Queue(s.down, c, v) + r.1]
  {
    hide Server.OnRowRequest, Server.OnOpLog, Server.OutTo, SrvOf, Queue;
  }

  lemma ServeBatchIs(cfg: Config, s: State, c: nat, v: Srv, m: Up)
    requires Queue(s.up, c, v) != [] && Queue(s.up, c, v)[0] == m && m.Batch?
    ensures DoServe(cfg, s, c, v).srv
         == s.srv[v := SrvOf(cfg, s.srv, v).OnOpLog(cfg.push, c, m.isClock, m.bgClock, m.rows)]
  {
    hide Server.OnOpLog, Server.OutTo, SrvOf, Queue;
  }

  lemma DeliverPushes(cfg: Config, s: State, c: nat, v: Srv)
    requires PushedUp(cfg, s.down, s.pushClock, s.srv) && MayDeliver(cfg, s, c, v)
    ensures var e := DoDeliver(s, c, v); PushedUp(cfg, e.down, e.pushClock, e.srv) && SameThreads(s, e)
  {
    hide DoDeliver, DeliverSteps.NewRows, SrvOf;
    DeliverSteps.DeliverState(s, c, v);
    var e, q := DoDeliver(s, c, v), Queue(s.down, c, v);
    if cfg.push {
      forall d: nat, u | d < |cfg.threads| && cfg.HasServer(u)
        ensures SrvOf(cfg, s.srv, u).vc.min <= LastPush(ClockAt(e.pushClock, d, u), Queue(e.down, d, u))
      {
        assert SrvOf(cfg, s.srv, u).vc.min <= LastPush(ClockAt(s.pushClock, d, u), Queue(s.down, d, u));
      }
    }
  }

  /** A served message appends to queues; what is appended leaves nobody behind. */
  lemma ServePushes(cfg: Config, s: State, c: nat, v: Srv)
    requires PushedUp(cfg, s.down, s.pushClock, s.srv) && MayServe(cfg, s, c, v)
    ensures var e := DoServe(cfg, s, c, v); PushedUp(cfg, e.down, e.pushClock, e.srv) && SameThreads(s, e)
  {
    hide Server.OnOpLog, Server.OnRowRequest, Server.OutTo, DoServe;
    var e := DoServe(cfg, s, c, v);
    ServeOnly(cfg, s, c, v);
    QueuesSame(s, e);
    if cfg.push {
      forall d: nat, u | d < |cfg.threads| && cfg.HasServer(u)
        ensures SrvOf(cfg, e.srv, u).vc.min <= LastPush(ClockAt(e.pushClock, d, u), Queue(e.down, d, u))
      {
        assert SrvOf(cfg, s.srv, u).vc.min <= LastPush(ClockAt(s.pushClock, d, u), Queue(s.down, d, u));
        ServePushesOne(cfg, s, c, v, d, u);
      }
    }
  }

  lemma ServePushesOne(cfg: Config, s: State, c: nat, v: Srv, d: nat, u: Srv)
    requires Queue(s.up, c, v) != [] && cfg.push && d < |cfg.threads|
    requires SrvOf(cfg, s.srv, u).vc.min <= LastPush(ClockAt(s.pushClock, d, u), Queue(s.down, d, u))
    ensures var e := DoServe(cfg, s, c, v);
      SrvOf(cfg, e.srv, u).vc.min <= LastPush(ClockAt(s.pushClock, d, u), Queue(e.down, d, u))
  {
    hide LastPush, Server.OutTo, Server.OnOpLog, Server.OnRowRequest, DoServe, ClockAt;
    var m := Queue(s.up, c, v)[0];
    if m.Ask? {
      AskPushes(cfg, s, c, v, m.key, m.clock, d, u);
    } else {
      BatchPushes(cfg, s, c, v, m, d, u);
    }
  }

  lemma AskPushes(cfg: Config, s: State, c: nat, v: Srv, key: Key, asked: int, d: nat, u: Srv)
    requires Queue(s.up, c, v) != [] && Queue(s.up, c, v)[0] == Ask(key, asked) && cfg.push
    requires SrvOf(cfg, s.srv, u).vc.min <= LastPush(ClockAt(s.pushClock, d, u), Queue(s.down, d, u))
    ensures var e := DoServe(cfg, s, c, v);
      SrvOf(cfg, e.srv, u).vc.min <= LastPush(ClockAt(s.pushClock, d, u), Queue(e.down, d, u))
  {
    hide LastPush, Server.OnRowRequest, DoServe, ClockAt;
    var sv := SrvOf(cfg, s.srv, v);
    ServeAskIs(cfg, s, c, v, key, asked);
    AskSame(sv, c, key, asked);
    ReplyPushesNothing(ClockAt(s.pushClock, d, u), Queue(s.down, d, u), sv.OnRowRequest(true, c, key, asked).1);
  }

  lemma BatchPushes(cfg: Config, s: State, c: nat, v: Srv, m: Up, d: nat, u: Srv)
    requires Queue(s.up, c, v) != [] && Queue(s.up, c, v)[0] == m && m.Batch? && cfg.push && d < |cfg.threads|
    requires SrvOf(cfg, s.srv, u).vc.min <= LastPush(ClockAt(s.pushClock, d, u), Queue(s.down, d, u))
    ensures var e := DoServe(cfg, s, c, v);
      SrvOf(cfg, e.srv, u).vc.min <= LastPush(ClockAt(s.pushClock, d, u), Queue(e.down, d, u))
  {
    hide LastPush, Server.OutTo, Server.OnOpLog, DoServe, ClockAt, Queue;
    var clock, q := ClockAt(s.pushClock, d, u), Queue(s.down, d, u);
    if u == v {
      OutPushes(SrvOf(cfg, s.srv, v), c, m.isClock, m.bgClock, m.rows, d, clock, q);
    }
    assert q + [] == q;
    ApplySteps.OutQueue(cfg, s, c, v, d, u);
    ServeBatchIs(cfg, s, c, v, m);
  }

  lemma AskSame(sv: Server, c: nat, key: Key, asked: int)
    ensures var r := sv.OnRowRequest(true, c, key, asked);
      r.0.vc == sv.vc && forall i :: 0 <= i < |r.1| ==> r.1[i].Reply?
  {
  }

  lemma ReplyPushesNothing(clock: int, q: seq<Down>, more: seq<Down>)
    requires forall i :: 0 <= i < |more| ==> more[i].Reply?
    ensures LastPush(clock, q + more) == LastPush(clock, q)
  {
    LastPushAppend(clock, q, more);
    LastPushReplies(LastPush(clock, q), more);
  }

  // ---- The steps inside Clock and what was posted ----

  lemma PostedUpStep(cfg: Config, s: State, step: Step)
    requires Good(cfg, s) && Can(cfg, s, step) && InClock(step)
    ensures var e := Next(cfg, s, step); PostedUp(cfg, e.pc, e.ticks, e.posted)
  {
    hide Inv, PostedUp;
    var t, e := step.t, Next(cfg, s, step);
    if step.TickClock? {
      TickPostedUp(cfg, s, t);
    } else if step.Post? {
      PostPostedUp(cfg, s, t);
    } else {
      OnlyPc(cfg, s, step);
      PcPostedUp(cfg, s.pc, s.ticks, s.posted, t, PcOf(e.pc, t));
    }
  }

  /** Until it ticks, a thread only moves itself. */
  lemma OnlyPc(cfg: Config, s: State, step: Step)
    requires Can(cfg, s, step) && (step.ClockBegin? || step.EndFlush? || step.AddIndex?)
    ensures var e := Next(cfg, s, step);
      && e.ticks == s.ticks && e.posted == s.posted && e.pc == s.pc[step.t := PcOf(e.pc, step.t)]
      && !PcOf(s.pc, step.t).Posting?
  {
    hide Uncached, Index, Chan;
  }

  lemma PcPostedUp(cfg: Config, pc: map<Thread, Pc>, ticks: map<Thread, nat>, posted: map<(nat, nat), nat>, t: Thread,
                   now: Pc)
    requires PostedUp(cfg, pc, ticks, posted) && !PcOf(pc, t).Posting?
    ensures PostedUp(cfg, pc[t := now], ticks, posted)
  {
    var pc' := pc[t := now];
    forall c: nat, p: nat | cfg.HasBg(c, p) ensures exists o :: UpToDate(cfg, pc', ticks, posted, c, p, o) {
      var o :| UpToDate(cfg, pc, ticks, posted, c, p, o);
      assert UpToDate(cfg, pc', ticks, posted, c, p, o);
    }
  }

  lemma TickPostedUp(cfg: Config, s: State, t: Thread)
    requires PostedUp(cfg, s.pc, s.ticks, s.posted) && cfg.HasThread(t) && PcOf(s.pc, t) == Ticking
    ensures var e := DoTick(cfg, s, t); PostedUp(cfg, e.pc, e.ticks, e.posted)
  {
    var e := DoTick(cfg, s, t);
    ClockSet(s.ticks, t, Clock(s.ticks, t) + 1);
    PcSet(s.pc, t, if UniqueMin(cfg, s.ticks, t) then Posting(0) else Running);
    forall c: nat, p: nat | cfg.HasBg(c, p) ensures exists o :: UpToDate(cfg, e.pc, e.ticks, e.posted, c, p, o) {
      var o :| UpToDate(cfg, s.pc, s.ticks, s.posted, c, p, o);
      if c == t.client && UniqueMin(cfg, s.ticks, t) {
        assert UpToDate(cfg, e.pc, e.ticks, e.posted, c, p, t);
      } else if o == t {
        var u :| cfg.HasThread(u) && u.client == t.client && u != t && Clock(s.ticks, u) <= Clock(s.ticks, t);
        assert UpToDate(cfg, e.pc, e.ticks, e.posted, c, p, u);
      } else {
        assert UpToDate(cfg, e.pc, e.ticks, e.posted, c, p, o);
      }
    }
  }

  lemma PostPostedUp(cfg: Config, s: State, t: Thread)
    requires PostedUp(cfg, s.pc, s.ticks, s.posted) && cfg.HasThread(t) && PcOf(s.pc, t).Posting?
    ensures var e := DoPost(cfg, s, t, PcOf(s.pc, t).chan); PostedUp(cfg, e.pc, e.ticks, e.posted)
  {
    var q := PcOf(s.pc, t).chan;
    var e := DoPost(cfg, s, t, q);
    PcSet(s.pc, t, if q + 1 < cfg.channels then Posting(q + 1) else Running);
    PostedSet(s.posted, t.client, q, Posted(s.posted, t.client, q) + 1);
    forall c: nat, p: nat | cfg.HasBg(c, p) ensures exists o :: UpToDate(cfg, e.pc, e.ticks, e.posted, c, p, o) {
      var o :| UpToDate(cfg, s.pc, s.ticks, s.posted, c, p, o);
      assert UpToDate(cfg, e.pc, e.ticks, e.posted, c, p, o);
    }
  }

  // ---- A thread catches up ----

  function Gap(goal: nat, ticks: nat): nat {
    if ticks < goal then goal - ticks else 0
  }

  /** How far thread o is from running at a clock that has reached the goal: the clocks it has yet to do, the tables and
      channels within one, and the oplogs of one table. */
  function Rounds(s: State, o: Thread, goal: nat): nat {
    match PcOf(s.pc, o)
    case Running => 2 * Gap(goal, Clock(s.ticks, o))
    case Posting(_) => 2 * Gap(goal, Clock(s.ticks, o)) + 1
    case _ => 2 * Gap(goal, Clock(s.ticks, o) + 1) + 2
  }

  function Stages(cfg: Config, pc: Pc): nat
    requires PcFine(cfg, pc)
  {
    match pc
    case Running => cfg.tables + 1
    case FlushCache(i) => cfg.tables - i
    case FlushIndex(i, _) => cfg.tables - i
    case Ticking => 0
    case Posting(p) => cfg.channels - p
  }

  function Chans(cfg: Config, pc: Pc): nat
    requires PcFine(cfg, pc)
  {
    match pc
    case FlushCache(_) => cfg.channels + 1
    case FlushIndex(_, p) => cfg.channels - p
    case _ => 0
  }

  function Unflushed(s: State, o: Thread): set<(Thread, Key)> {
    match PcOf(s.pc, o)
    case FlushCache(i) => set w | w in s.tOplog && w.0 == o && w.1.table == i
    case _ => {}
  }

  ghost predicate Nearer(cfg: Config, s: State, e: State, o: Thread, goal: nat)
    requires PcFine(cfg, PcOf(s.pc, o)) && PcFine(cfg, PcOf(e.pc, o))
  {
    || Rounds(e, o, goal) < Rounds(s, o, goal)
    || (Rounds(e, o, goal) == Rounds(s, o, goal) &&
        (|| Stages(cfg, PcOf(e.pc, o)) < Stages(cfg, PcOf(s.pc, o))
         || (Stages(cfg, PcOf(e.pc, o)) == Stages(cfg, PcOf(s.pc, o)) &&
             (|| Chans(cfg, PcOf(e.pc, o)) < Chans(cfg, PcOf(s.pc, o))
              || (Chans(cfg, PcOf(e.pc, o)) == Chans(cfg, PcOf(s.pc, o)) && |Unflushed(e, o)| < |Unflushed(s, o)|)))))
  }

  /** The other threads are where they were. */
  ghost predicate OnlyThread(s: State, e: State, o: Thread) {
    forall x :: x != o ==>
      PcOf(e.pc, x) == PcOf(s.pc, x) && Clock(e.ticks, x) == Clock(s.ticks, x) && Clock(e.clock, x) == Clock(s.clock, x)
  }

  predicate ByThread(step: Step, o: Thread) {
    (InClock(step) || step.FlushRow?) && step.t == o
  }

  ghost predicate AllFine(cfg: Config, pc: map<Thread, Pc>) {
    forall t :: PcFine(cfg, PcOf(pc, t))
  }

  lemma GoodFine(cfg: Config, s: State)
    requires Good(cfg, s)
    ensures AllFine(cfg, s.pc)
  {
    hide Where, Caches, Values, Clocks, Bgs, Coverage, InTime, Network, PostedUp, PushedUp, Indexed, PcFine;
  }

  lemma BeginStep(cfg: Config, s: State, o: Thread, goal: nat)
    requires AllFine(cfg, s.pc) && cfg.HasThread(o) && PcOf(s.pc, o) == Running && Clock(s.ticks, o) < goal
    ensures Can(cfg, s, ClockBegin(o))
    ensures var e := Next(cfg, s, ClockBegin(o));
      PcFine(cfg, PcOf(e.pc, o)) && Nearer(cfg, s, e, o, goal) && OnlyThread(s, e, o)
  {
    PcSet(s.pc, o, FirstTable(cfg, 0));
    ClockSet(s.clock, o, Clock(s.clock, o) + 1);
  }

  lemma FlushIs(cfg: Config, s: State, o: Thread, key: Key)
    requires cfg.HasThread(o) && PcOf(s.pc, o) == FlushCache(key.table) && (o, key) in s.tOplog
    ensures Can(cfg, s, FlushRow(o, key, true))
    ensures var e := Next(cfg, s, FlushRow(o, key, true));
      e.pc == s.pc && e.ticks == s.ticks && e.clock == s.clock && e.tOplog == s.tOplog - {(o, key)}
  {
    hide Move, MergeRow, Merge, Val;
  }

  lemma FlushStep(cfg: Config, s: State, o: Thread, key: Key, goal: nat)
    requires AllFine(cfg, s.pc) && cfg.HasThread(o) && PcOf(s.pc, o) == FlushCache(key.table) && (o, key) in s.tOplog
    ensures Can(cfg, s, FlushRow(o, key, true))
    ensures var e := Next(cfg, s, FlushRow(o, key, true));
      PcFine(cfg, PcOf(e.pc, o)) && Nearer(cfg, s, e, o, goal) && OnlyThread(s, e, o)
  {
    hide Can, Next, Stages, Chans;
    FlushIs(cfg, s, o, key);
    var e := Next(cfg, s, FlushRow(o, key, true));
    FineAt(cfg, s.pc, o);
    assert Unflushed(e, o) == Unflushed(s, o) - {(o, key)};
    assert (o, key) in Unflushed(s, o);
  }

  lemma EndFlushStep(cfg: Config, s: State, o: Thread, goal: nat)
    requires AllFine(cfg, s.pc) && cfg.HasThread(o) && PcOf(s.pc, o).FlushCache? && Unflushed(s, o) == {}
    ensures Can(cfg, s, EndFlush(o))
    ensures var e := Next(cfg, s, EndFlush(o));
      PcFine(cfg, PcOf(e.pc, o)) && Nearer(cfg, s, e, o, goal) && OnlyThread(s, e, o)
  {
    var i := PcOf(s.pc, o).table;
    forall w | w in s.tOplog && w.0 == o ensures w.1.table != i {
      assert w !in Unflushed(s, o);
    }
    PcSet(s.pc, o, FlushIndex(i, 0));
    hide Uncached;
  }

  lemma AddIndexIs(cfg: Config, s: State, o: Thread, i: nat, p: nat)
    requires cfg.HasThread(o) && PcOf(s.pc, o) == FlushIndex(i, p)
    ensures Can(cfg, s, AddIndex(o))
    ensures var e := Next(cfg, s, AddIndex(o));
      && e.pc == s.pc[o := if p + 1 < cfg.channels then FlushIndex(i, p + 1) else FirstTable(cfg, i + 1)]
      && e.ticks == s.ticks && e.clock == s.clock
  {
    hide Index, Chan;
  }

  lemma AddIndexStep(cfg: Config, s: State, o: Thread, goal: nat)
    requires AllFine(cfg, s.pc) && cfg.HasThread(o) && PcOf(s.pc, o).FlushIndex?
    ensures Can(cfg, s, AddIndex(o))
    ensures var e := Next(cfg, s, AddIndex(o));
      PcFine(cfg, PcOf(e.pc, o)) && Nearer(cfg, s, e, o, goal) && OnlyThread(s, e, o)
  {
    hide Can, Next, Unflushed;
    FineAt(cfg, s.pc, o);
    var i, p := PcOf(s.pc, o).table, PcOf(s.pc, o).chan;
    AddIndexIs(cfg, s, o, i, p);
    PcSet(s.pc, o, if p + 1 < cfg.channels then FlushIndex(i, p + 1) else FirstTable(cfg, i + 1));
  }

  lemma TickStep(cfg: Config, s: State, o: Thread, goal: nat)
    requires AllFine(cfg, s.pc) && cfg.HasThread(o) && PcOf(s.pc, o) == Ticking
    ensures Can(cfg, s, TickClock(o))
    ensures var e := Next(cfg, s, TickClock(o));
      PcFine(cfg, PcOf(e.pc, o)) && Nearer(cfg, s, e, o, goal) && OnlyThread(s, e, o)
  {
    hide UniqueMin;
    PcSet(s.pc, o, if UniqueMin(cfg, s.ticks, o) then Posting(0) else Running);
    ClockSet(s.ticks, o, Clock(s.ticks, o) + 1);
  }

  lemma PostIs(cfg: Config, s: State, o: Thread, p: nat)
    requires cfg.HasThread(o) && PcOf(s.pc, o) == Posting(p)
    ensures Can(cfg, s, Post(o))
    ensures var e := Next(cfg, s, Post(o));
      && e.pc == s.pc[o := if p + 1 < cfg.channels then Posting(p + 1) else Running]
      && e.ticks == s.ticks && e.clock == s.clock
  {
  }

  lemma PostStep(cfg: Config, s: State, o: Thread, goal: nat)
    requires AllFine(cfg, s.pc) && cfg.HasThread(o) && PcOf(s.pc, o).Posting?
    ensures Can(cfg, s, Post(o))
    ensures var e := Next(cfg, s, Post(o));
      PcFine(cfg, PcOf(e.pc, o)) && Nearer(cfg, s, e, o, goal) && OnlyThread(s, e, o)
  {
    hide Can, Next, Unflushed;
    FineAt(cfg, s.pc, o);
    var p := PcOf(s.pc, o).chan;
    PostIs(cfg, s, o, p);
    PcSet(s.pc, o, if p + 1 < cfg.channels then Posting(p + 1) else Running);
  }

  /** A thread that is not there yet can always take a step towards it. */
  lemma ThreadStep(cfg: Config, s: State, o: Thread, goal: nat) returns (step: Step)
    requires AllFine(cfg, s.pc) && cfg.HasThread(o)
    requires !(PcOf(s.pc, o) == Running && goal <= Clock(s.ticks, o))
    ensures Can(cfg, s, step) && ByThread(step, o)
    ensures var e := Next(cfg, s, step);
      PcFine(cfg, PcOf(e.pc, o)) && Nearer(cfg, s, e, o, goal) && OnlyThread(s, e, o)
  {
    hide Can, Next, Nearer, OnlyThread, AllFine;
    match PcOf(s.pc, o) {
      case Running =>
        BeginStep(cfg, s, o, goal);
        step := ClockBegin(o);
      case FlushCache(i) =>
        if w :| w in Unflushed(s, o) {
          FlushStep(cfg, s, o, w.1, goal);
          step := FlushRow(o, w.1, true);
        } else {
          assert Unflushed(s, o) == {};
          EndFlushStep(cfg, s, o, goal);
          step := EndFlush(o);
        }
      case FlushIndex(_, _) =>
        AddIndexStep(cfg, s, o, goal);
        step := AddIndex(o);
      case Ticking =>
        TickStep(cfg, s, o, goal);
        step := TickClock(o);
      case Posting(_) =>
        PostStep(cfg, s, o, goal);
        step := Post(o);
    }
  }

  /** So by its own steps a thread gets out of Clock, and to any clock. */
  lemma {:induction false} ThreadCatchesUp(cfg: Config, s: State, o: Thread, goal: nat)
    returns (more: seq<Step>, e: State)
    requires Good(cfg, s) && AllFine(cfg, s.pc) && cfg.HasThread(o)
    ensures Goes(cfg, s, more, e) && Good(cfg, e) && OnlyThread(s, e, o)
    ensures PcOf(e.pc, o) == Running && goal <= Clock(e.ticks, o)
    ensures forall i :: 0 <= i < |more| ==> ByThread(more[i], o)
    decreases Rounds(s, o, goal), Stages(cfg, PcOf(s.pc, o)), Chans(cfg, PcOf(s.pc, o)), |Unflushed(s, o)|
  {
    hide Can, Next, Good, AllFine, Goes, Rounds, Stages, Chans, Unflushed, PcFine;
    if PcOf(s.pc, o) == Running && goal <= Clock(s.ticks, o) {
      Stay(cfg, s);
      more, e := [], s;
    } else {
      FineAt(cfg, s.pc, o);
      var step := ThreadStep(cfg, s, o, goal);
      var next := Next(cfg, s, step);
      GoodStep(cfg, s, step);
      GoodFine(cfg, next);
      more, e := ThreadCatchesUp(cfg, next, o, goal);
      First(cfg, s, step, more, e);
      more := [step] + more;
    }
  }

  lemma FineAt(cfg: Config, pc: map<Thread, Pc>, o: Thread)
    requires AllFine(cfg, pc)
    ensures PcFine(cfg, PcOf(pc, o))
  {
  }

  // ---- All threads but the reader catch up ----

  /** A step that thread t has no part in, and that makes no new update. */
  predicate Without(step: Step, t: Thread) {
    match step
    case Inc(_, _, _) => false
    case ThreadInc(_, _, _) => false
    case FlushRow(o, _, _) => o != t
    case ClockBegin(o) => o != t
    case EndFlush(o) => o != t
    case AddIndex(o) => o != t
    case TickClock(o) => o != t
    case Post(o) => o != t
    case Fetch(o, _) => o != t
    case Forget(o, _) => o != t
    case _ => true
  }

  ghost predicate AllWithout(more: seq<Step>, t: Thread) {
    forall i :: 0 <= i < |more| ==> Without(more[i], t)
  }

  ghost predicate OnlyThreads(s: State, e: State, os: set<Thread>) {
    forall x :: x !in os ==>
      PcOf(e.pc, x) == PcOf(s.pc, x) && Clock(e.ticks, x) == Clock(s.ticks, x) && Clock(e.clock, x) == Clock(s.clock, x)
  }

  ghost predicate CaughtUp(s: State, o: Thread, goal: nat) {
    PcOf(s.pc, o) == Running && goal <= Clock(s.ticks, o)
  }

  lemma {:induction false} ThreadsCatchUp(cfg: Config, s: State, t: Thread, goal: nat, os: set<Thread>)
    returns (more: seq<Step>, e: State)
    requires Good(cfg, s) && t !in os && forall o :: o in os ==> cfg.HasThread(o)
    ensures Goes(cfg, s, more, e) && Good(cfg, e) && AllWithout(more, t) && OnlyThreads(s, e, os)
    ensures forall o :: o in os ==> CaughtUp(e, o, goal)
    decreases |os|
  {
    hide Can, Next, Good, Goes, AllFine;
    if os == {} {
      Stay(cfg, s);
      more, e := [], s;
    } else {
      var o :| o in os;
      GoodFine(cfg, s);
      var a, m := ThreadCatchesUp(cfg, s, o, goal);
      var b;
      b, e := ThreadsCatchUp(cfg, m, t, goal, os - {o});
      Then(cfg, s, a, m, b, e);
      more := a + b;
      assert CaughtUp(e, o, goal);
    }
  }

  // ---- A worker catches up ----

  function LastHist(b: Bg): nat
    requires b.hist != []
  {
    b.hist[|b.hist| - 1]
  }

  /** How far a worker is from being idle with all clocks sent: the clocks, the tables, and the rows or servers. */
  function BgRounds(b: Bg, posted: nat): nat
    requires b.hist != []
  {
    match b.pc
    case Idle => 2 * Gap(posted, LastHist(b))
    case Drain(isClock, _, _, _) => 2 * Gap(posted, LastHist(b) + if isClock then 1 else 0) + 1
    case Sending(_, _) => 2 * Gap(posted, LastHist(b)) + 1
  }

  function BgTables(cfg: Config, b: Bg): nat
    requires b.pc.Drain? ==> b.pc.table <= cfg.tables
  {
    if b.pc.Drain? then cfg.tables - b.pc.table + 1 else 0
  }

  function BgLeft(cfg: Config, b: Bg): nat
    requires b.pc.Sending? ==> b.pc.next <= |cfg.threads|
  {
    match b.pc
    case Idle => 0
    case Drain(_, _, taken, _) => |taken|
    case Sending(_, next) => |cfg.threads| - next
  }

  ghost predicate BgNearer(cfg: Config, b: Bg, now: Bg, posted: nat, p: nat)
    requires BgFine(cfg, posted, b, p)
  {
    && now.hist != [] && (now.pc.Drain? ==> now.pc.table <= cfg.tables)
    && (now.pc.Sending? ==> now.pc.next <= |cfg.threads|)
    && (|| BgRounds(now, posted) < BgRounds(b, posted)
        || (BgRounds(now, posted) == BgRounds(b, posted) &&
            (|| BgTables(cfg, now) < BgTables(cfg, b)
             || (BgTables(cfg, now) == BgTables(cfg, b) && BgLeft(cfg, now) < BgLeft(cfg, b)))))
  }

  lemma StartIs(cfg: Config, s: State, c: nat, p: nat)
    requires cfg.HasBg(c, p) && BgOf(s.bg, c, p).pc == Idle && BgOf(s.bg, c, p).hist != []
    requires LastHist(BgOf(s.bg, c, p)) < Posted(s.posted, c, p)
    ensures Can(cfg, s, BgStart(c, p, true))
    ensures Next(cfg, s, BgStart(c, p, true)).bg
         == s.bg[(c, p) := BgOf(s.bg, c, p).(pc := Drain(true, 0, {}, map[]))]
  {
  }

  lemma EraseIs(cfg: Config, s: State, c: nat, p: nat, key: Key)
    requires cfg.HasBg(c, p) && BgOf(s.bg, c, p).pc.Drain? && key in BgOf(s.bg, c, p).pc.taken
    ensures Can(cfg, s, BgErase(c, p, key))
    ensures Next(cfg, s, BgErase(c, p, key)).bg
         == s.bg[(c, p) := Erase(BgOf(s.bg, c, p), s.pOplog, c, key)]
  {
    hide Move, Erase;
  }

  lemma TakeIs(cfg: Config, s: State, c: nat, p: nat)
    requires cfg.HasBg(c, p) && BgOf(s.bg, c, p).pc.Drain? && BgOf(s.bg, c, p).pc.taken == {}
    requires BgOf(s.bg, c, p).pc.table < cfg.tables
    ensures Can(cfg, s, BgTake(c, p))
    ensures var b, e := BgOf(s.bg, c, p), Next(cfg, s, BgTake(c, p));
      BgOf(e.bg, c, p).pc.Drain? &&
      e.bg == s.bg[(c, p) := b.(pc := b.pc.(taken := BgOf(e.bg, c, p).pc.taken, table := b.pc.table + 1))]
  {
    hide Index, Chan;
  }

  lemma PackIs(cfg: Config, s: State, c: nat, p: nat)
    requires cfg.HasBg(c, p) && BgOf(s.bg, c, p).pc.Drain? && BgOf(s.bg, c, p).pc.taken == {}
    requires BgOf(s.bg, c, p).pc.table == cfg.tables && BgOf(s.bg, c, p).hist != [] && |s.place| == |s.log|
    ensures Can(cfg, s, BgPack(c, p))
    ensures var b := BgOf(s.bg, c, p);
      Next(cfg, s, BgPack(c, p)).bg
        == s.bg[(c, p) := Bg(b.saved + [b.pc.got],
                             b.hist + [if b.pc.isClock then LastHist(b) + 1 else LastHist(b)],
                             Sending(b.pc.isClock, 0))]
  {
    hide Chan;
  }

  lemma SendIs(cfg: Config, s: State, c: nat, p: nat)
    requires cfg.HasBg(c, p) && BgOf(s.bg, c, p).pc.Sending? && BgOf(s.bg, c, p).pc.next < |cfg.threads|
    requires 0 < |BgOf(s.bg, c, p).saved| <= |BgOf(s.bg, c, p).hist|
    ensures Can(cfg, s, BgSend(c, p))
    ensures var b := BgOf(s.bg, c, p);
      Next(cfg, s, BgSend(c, p)).bg == s.bg[(c, p) := b.(pc := b.pc.(next := b.pc.next + 1))]
  {
    hide Restrict, Queue;
  }

  lemma FinishIs(cfg: Config, s: State, c: nat, p: nat)
    requires cfg.HasBg(c, p) && BgOf(s.bg, c, p).pc.Sending? && BgOf(s.bg, c, p).pc.next == |cfg.threads|
    ensures Can(cfg, s, BgFinish(c, p))
    ensures Next(cfg, s, BgFinish(c, p)).bg == s.bg[(c, p) := BgOf(s.bg, c, p).(pc := Idle)]
  {
  }

  lemma EraseNearer(cfg: Config, b: Bg, pOplog: map<(nat, Key), Cell>, c: nat, key: Key, posted: nat, p: nat)
    requires BgFine(cfg, posted, b, p) && b.pc.Drain? && key in b.pc.taken
    ensures BgNearer(cfg, b, Erase(b, pOplog, c, key), posted, p)
  {
    assert Erase(b, pOplog, c, key).pc.taken == b.pc.taken - {key};
  }

  lemma TakeNearer(cfg: Config, b: Bg, rows: set<Key>, posted: nat, p: nat)
    requires BgFine(cfg, posted, b, p) && b.pc.Drain? && b.pc.table < cfg.tables
    ensures BgNearer(cfg, b, b.(pc := b.pc.(taken := rows, table := b.pc.table + 1)), posted, p)
  {
  }

  lemma PackNearer(cfg: Config, b: Bg, now: Bg, posted: nat, p: nat)
    requires BgFine(cfg, posted, b, p) && b.pc.Drain? && b.pc.table == cfg.tables
    requires now.hist == b.hist + [if b.pc.isClock then LastHist(b) + 1 else LastHist(b)]
    requires now.pc == Sending(b.pc.isClock, 0)
    ensures BgNearer(cfg, b, now, posted, p)
  {
  }

  lemma DrainStep(cfg: Config, s: State, c: nat, p: nat) returns (step: Step, now: Bg)
    requires cfg.HasBg(c, p) && BgFine(cfg, Posted(s.posted, c, p), BgOf(s.bg, c, p), p) && |s.place| == |s.log|
    requires BgOf(s.bg, c, p).pc.Drain?
    ensures Can(cfg, s, step) && OfWorker(step) && Next(cfg, s, step).bg == s.bg[(c, p) := now]
    ensures BgNearer(cfg, BgOf(s.bg, c, p), now, Posted(s.posted, c, p), p)
  {
    hide Can, Next, BgOf, BgNearer, Erase;
    var b, posted := BgOf(s.bg, c, p), Posted(s.posted, c, p);
    if key :| key in b.pc.taken {
      EraseIs(cfg, s, c, p, key);
      EraseNearer(cfg, b, s.pOplog, c, key, posted, p);
      step, now := BgErase(c, p, key), Erase(b, s.pOplog, c, key);
    } else if b.pc.table < cfg.tables {
      assert b.pc.taken == {};
      TakeIs(cfg, s, c, p);
      var rows := BgOf(Next(cfg, s, BgTake(c, p)).bg, c, p).pc.taken;
      TakeNearer(cfg, b, rows, posted, p);
      step, now := BgTake(c, p), b.(pc := b.pc.(taken := rows, table := b.pc.table + 1));
    } else {
      assert b.pc.taken == {};
      PackIs(cfg, s, c, p);
      step := BgPack(c, p);
      now := Bg(b.saved + [b.pc.got], b.hist + [if b.pc.isClock then LastHist(b) + 1 else LastHist(b)],
                Sending(b.pc.isClock, 0));
      PackNearer(cfg, b, now, posted, p);
    }
  }

  /** A worker that is not idle with all clocks sent can always take a step towards it. */
  lemma WorkerStep(cfg: Config, s: State, c: nat, p: nat) returns (step: Step, now: Bg)
    requires cfg.HasBg(c, p) && BgFine(cfg, Posted(s.posted, c, p), BgOf(s.bg, c, p), p) && |s.place| == |s.log|
    requires !(BgOf(s.bg, c, p).pc == Idle && LastHist(BgOf(s.bg, c, p)) == Posted(s.posted, c, p))
    ensures Can(cfg, s, step) && OfWorker(step) && Next(cfg, s, step).bg == s.bg[(c, p) := now]
    ensures BgNearer(cfg, BgOf(s.bg, c, p), now, Posted(s.posted, c, p), p)
  {
    hide Can, Next, BgOf;
    var b := BgOf(s.bg, c, p);
    if b.pc.Drain? {
      step, now := DrainStep(cfg, s, c, p);
    } else if b.pc == Idle {
      StartIs(cfg, s, c, p);
      step, now := BgStart(c, p, true), b.(pc := Drain(true, 0, {}, map[]));
    } else if b.pc.next < |cfg.threads| {
      SendIs(cfg, s, c, p);
      step, now := BgSend(c, p), b.(pc := b.pc.(next := b.pc.next + 1));
    } else {
      FinishIs(cfg, s, c, p);
      step, now := BgFinish(c, p), b.(pc := Idle);
    }
  }

  ghost predicate BgDone(s: State, c: nat, p: nat) {
    var b := BgOf(s.bg, c, p);
    b.pc == Idle && b.hist != [] && LastHist(b) == Posted(s.posted, c, p)
  }

  lemma GoodBg(cfg: Config, s: State, c: nat, p: nat)
    requires Good(cfg, s) && cfg.HasBg(c, p)
    ensures BgFine(cfg, Posted(s.posted, c, p), BgOf(s.bg, c, p), p) && |s.place| == |s.log|
  {
    hide Where, Caches, Values, Clocks, Flushes, Coverage, InTime, Network, PostedUp, PushedUp, BgFine;
  }

  lemma BgOfNow(bg: map<(nat, nat), Bg>, c: nat, p: nat, now: Bg)
    ensures BgOf(bg[(c, p) := now], c, p) == now
    ensures forall d: nat, q: nat :: (d, q) != (c, p) ==> BgOf(bg[(c, p) := now], d, q) == BgOf(bg, d, q)
  {
  }

  /** By its own steps a worker becomes idle, with all clocks sent. */
  lemma {:induction false} WorkerCatchesUp(cfg: Config, s: State, c: nat, p: nat) returns (more: seq<Step>, e: State)
    requires Good(cfg, s) && cfg.HasBg(c, p) && BgFine(cfg, Posted(s.posted, c, p), BgOf(s.bg, c, p), p)
    ensures Goes(cfg, s, more, e) && Good(cfg, e) && SameThreads(s, e) && BgDone(e, c, p)
    ensures forall i :: 0 <= i < |more| ==> OfWorker(more[i])
    ensures forall d: nat, q: nat :: (d, q) != (c, p) ==> BgOf(e.bg, d, q) == BgOf(s.bg, d, q)
    decreases BgRounds(BgOf(s.bg, c, p), Posted(s.posted, c, p)), BgTables(cfg, BgOf(s.bg, c, p)),
              BgLeft(cfg, BgOf(s.bg, c, p))
  {
    hide Can, Next, Good, Goes, BgOf, BgRounds, BgTables, BgLeft;
    GoodBg(cfg, s, c, p);
    if BgOf(s.bg, c, p).pc == Idle && LastHist(BgOf(s.bg, c, p)) == Posted(s.posted, c, p) {
      Stay(cfg, s);
      more, e := [], s;
    } else {
      var step, now := WorkerStep(cfg, s, c, p);
      hide BgFine;
      var next := Next(cfg, s, step);
      GoodStep(cfg, s, step);
      GoodBg(cfg, next, c, p);
      WorkerSame(cfg, s, step);
      BgOfNow(s.bg, c, p, now);
      more, e := WorkerCatchesUp(cfg, next, c, p);
      First(cfg, s, step, more, e);
      more := [step] + more;
    }
  }

  lemma {:induction false} WorkersCatchUp(cfg: Config, s: State, t: Thread, bgs: set<(nat, nat)>)
    returns (more: seq<Step>, e: State)
    requires Good(cfg, s) && forall w :: w in bgs ==> cfg.HasBg(w.0, w.1)
    ensures Goes(cfg, s, more, e) && Good(cfg, e) && AllWithout(more, t) && SameThreads(s, e)
    ensures forall w :: w in bgs ==> BgDone(e, w.0, w.1)
    ensures forall d: nat, q: nat :: (d, q) !in bgs ==> BgOf(e.bg, d, q) == BgOf(s.bg, d, q)
    decreases |bgs|
  {
    hide Can, Next, Good, Goes, BgOf, BgFine, Posted;
    if bgs == {} {
      Stay(cfg, s);
      more, e := [], s;
    } else {
      var w :| w in bgs;
      GoodBg(cfg, s, w.0, w.1);
      var a, m := WorkerCatchesUp(cfg, s, w.0, w.1);
      var b;
      b, e := WorkersCatchUp(cfg, m, t, bgs - {w});
      Then(cfg, s, a, m, b, e);
      more := a + b;
      assert BgDone(e, w.0, w.1);
    }
  }

  // ---- The servers catch up ----

  ghost predicate Served(e: State, c: nat, v: Srv) {
    Queue(e.up, c, v) == []
  }

  lemma {:induction false} ServeAllOf(cfg: Config, s: State, c: nat, v: Srv) returns (more: seq<Step>, e: State)
    requires Good(cfg, s) && c < |cfg.threads| && cfg.HasServer(v)
    ensures Goes(cfg, s, more, e) && Good(cfg, e) && SameThreads(s, e) && e.bg == s.bg && Served(e, c, v)
    ensures forall i :: 0 <= i < |more| ==> more[i].Serve?
    ensures forall d: nat, u :: (d, u) != (c, v) ==> Queue(e.up, d, u) == Queue(s.up, d, u)
    decreases |Queue(s.up, c, v)|
  {
    hide Good, Goes, Queue, DoServe;
    if Queue(s.up, c, v) == [] {
      Stay(cfg, s);
      more, e := [], s;
    } else {
      var step, next := Serve(c, v), DoServe(cfg, s, c, v);
      ServeIs(cfg, s, c, v);
      hide Can, Next;
      GoodStep(cfg, s, step);
      QueueSet(s.up, c, v, Queue(s.up, c, v)[1..]);
      more, e := ServeAllOf(cfg, next, c, v);
      First(cfg, s, step, more, e);
      more := [step] + more;
    }
  }

  lemma ServeIs(cfg: Config, s: State, c: nat, v: Srv)
    requires c < |cfg.threads| && cfg.HasServer(v) && Queue(s.up, c, v) != []
    ensures Can(cfg, s, Serve(c, v)) && Next(cfg, s, Serve(c, v)) == DoServe(cfg, s, c, v)
    ensures var e := DoServe(cfg, s, c, v);
      SameThreads(s, e) && e.bg == s.bg && e.up == s.up[(c, v) := Queue(s.up, c, v)[1..]]
  {
    hide DoServe, SameThreads, OnlyQueues;
    ServeOnly(cfg, s, c, v);
    QueuesSame(s, DoServe(cfg, s, c, v));
  }

  lemma {:induction false} ServersCatchUp(cfg: Config, s: State, t: Thread, ws: set<(nat, Srv)>)
    returns (more: seq<Step>, e: State)
    requires Good(cfg, s) && forall w :: w in ws ==> w.0 < |cfg.threads| && cfg.HasServer(w.1)
    ensures Goes(cfg, s, more, e) && Good(cfg, e) && AllWithout(more, t) && SameThreads(s, e) && e.bg == s.bg
    ensures forall w :: w in ws ==> Served(e, w.0, w.1)
    ensures forall d: nat, u :: (d, u) !in ws ==> Queue(e.up, d, u) == Queue(s.up, d, u)
    decreases |ws|
  {
    hide Can, Next, Good, Goes, Queue;
    if ws == {} {
      Stay(cfg, s);
      more, e := [], s;
    } else {
      var w :| w in ws;
      var a, m := ServeAllOf(cfg, s, w.0, w.1);
      var b;
      b, e := ServersCatchUp(cfg, m, t, ws - {w});
      Then(cfg, s, a, m, b, e);
      more := a + b;
      SameServed(m, e, w.0, w.1);
    }
  }

  lemma SameServed(m: State, e: State, c: nat, v: Srv)
    requires Queue(e.up, c, v) == Queue(m.up, c, v) && Served(m, c, v)
    ensures Served(e, c, v)
  {
  }

  /** Everybody runs at the goal or past it, every worker has sent all clocks, and the servers have taken them. */
  ghost predicate Settled(cfg: Config, s: State, goal: nat) {
    && (forall o :: cfg.HasThread(o) ==> CaughtUp(s, o, goal))
    && (forall c: nat, p: nat :: cfg.HasBg(c, p) ==> BgDone(s, c, p))
    && (forall c: nat, v :: c < |cfg.threads| && cfg.HasServer(v) ==> Served(s, c, v))
  }

  /** Then every server has reached the goal. */
  lemma SettledServers(cfg: Config, s: State, goal: nat, v: Srv)
    requires Good(cfg, s) && Settled(cfg, s, goal) && cfg.HasServer(v)
    ensures goal <= SrvOf(cfg, s.srv, v).vc.min
  {
    hide Where, Caches, Values, Clocks, Bgs, Flushes, Coverage, InTime, PushedUp, SrvOf, BgOf, Queue;
    var sv := SrvOf(cfg, s.srv, v);
    assert sv.vc.Valid();
    var least :| least in sv.vc.clk && sv.vc.clk[least] == sv.vc.min;
    var c: nat := least;
    assert Link(cfg, c, v, BgOf(s.bg, c, v.chan), sv, Queue(s.up, c, v));
    GoodBg(cfg, s, c, v.chan);
    assert cfg.HasBg(c, v.chan);
    assert Served(s, c, v) && BgDone(s, c, v.chan);
    var o :| UpToDate(cfg, s.pc, s.ticks, s.posted, c, v.chan, o);
    assert CaughtUp(s, o, goal);
  }

  /** From every reachable state it can come to that, by steps of the threads that are not there yet, the workers and
      the servers. */
  lemma Settle(cfg: Config, s: State, t: Thread, goal: nat, os: set<Thread>) returns (more: seq<Step>, e: State)
    requires Good(cfg, s) && t !in os && forall o :: o in os ==> cfg.HasThread(o)
    requires forall o :: cfg.HasThread(o) && o !in os ==> CaughtUp(s, o, goal)
    ensures Goes(cfg, s, more, e) && Good(cfg, e) && AllWithout(more, t)
    ensures Clock(e.clock, t) == Clock(s.clock, t) && Settled(cfg, e, goal)
  {
    hide Can, Next, Good, Goes, SameThreads, BgDone, Served, Queue, BgOf;
    var a, m1 := ThreadsCatchUp(cfg, s, t, goal, os);
    var bgs := set c: nat, p: nat | c < |cfg.threads| && p < cfg.channels :: (c, p);
    var b, m2 := WorkersCatchUp(cfg, m1, t, bgs);
    Then(cfg, s, a, m1, b, m2);
    var ws := set c: nat, h: nat, p: nat | c < |cfg.threads| && h < |cfg.threads| && p < cfg.channels :: (c, Srv(h, p));
    var d;
    d, e := ServersCatchUp(cfg, m2, t, ws);
    Then(cfg, s, a + b, m2, d, e);
    more := a + b + d;
    forall o | cfg.HasThread(o) ensures CaughtUp(e, o, goal) {
      assert o !in os ==> CaughtUp(s, o, goal);
      assert CaughtUp(m1, o, goal);
      StillCaughtUp(m1, m2, o, goal);
      StillCaughtUp(m2, e, o, goal);
    }
    forall c: nat, p: nat | cfg.HasBg(c, p) ensures BgDone(e, c, p) {
      assert (c, p) in bgs;
      StillDone(m2, e, c, p);
    }
    forall c: nat, v | c < |cfg.threads| && cfg.HasServer(v) ensures Served(e, c, v) {
      assert v == Srv(v.host, v.chan) && (c, v) in ws;
    }
    SameClock(m1, m2, e, t);
  }

  function AllThreads(cfg: Config): (os: set<Thread>)
    ensures forall o :: o in os <==> cfg.HasThread(o)
  {
    var os := set c: nat, i: nat | c < |cfg.threads| && i < cfg.threads[c] :: Thread(c, i);
    assert forall o :: cfg.HasThread(o) ==> o == Thread(o.client, o.idx);
    os
  }

  lemma SameClock(m1: State, m2: State, e: State, t: Thread)
    requires SameThreads(m1, m2) && SameThreads(m2, e)
    ensures Clock(e.clock, t) == Clock(m1.clock, t)
  {
  }

  lemma StillCaughtUp(s: State, e: State, o: Thread, goal: nat)
    requires SameThreads(s, e) && CaughtUp(s, o, goal)
    ensures CaughtUp(e, o, goal)
  {
  }

  lemma StillDone(s: State, e: State, c: nat, p: nat)
    requires SameThreads(s, e) && e.bg == s.bg && BgDone(s, c, p)
    ensures BgDone(e, c, p)
  {
  }

  lemma RunningTicks(cfg: Config, s: State, t: Thread)
    requires Good(cfg, s) && PcOf(s.pc, t) == Running
    ensures Clock(s.ticks, t) == Clock(s.clock, t)
  {
    hide Where, Caches, Values, Bgs, Flushes, Coverage, InTime, Network, PostedUp, PushedUp;
  }

  // ---- The read ----

  ghost predicate OnlyDown(s: State, e: State) {
    e == s.(down := e.down, seen := e.seen, pRow := e.pRow, pushClock := e.pushClock)
  }

  lemma DeliverIs(cfg: Config, s: State, c: nat, v: Srv)
    requires c < |cfg.threads| && cfg.HasServer(v) && Queue(s.down, c, v) != [] && BgOf(s.bg, c, v.chan).pc == Idle
    ensures Can(cfg, s, Deliver(c, v)) && Next(cfg, s, Deliver(c, v)) == DoDeliver(s, c, v)
    ensures var e := DoDeliver(s, c, v);
      OnlyDown(s, e) && e.down == s.down[(c, v) := Queue(s.down, c, v)[1..]] && s.pRow.Keys <= e.pRow.Keys
  {
    hide DoDeliver, Queue, BgOf, DeliverSteps.NewRows;
    DeliverSteps.DeliverState(s, c, v);
    RowsStay(BgOf(s.bg, c, v.chan).saved, s.pOplog, s.pRow, c, Queue(s.down, c, v)[0]);
  }

  lemma RowsStay(saved: seq<map<Key, Cell>>, pOplog: map<(nat, Key), Cell>, pRow: map<(nat, Key), PRow>, c: nat,
                 m: Down)
    ensures pRow.Keys <= DeliverSteps.NewRows(saved, pOplog, pRow, c, m).Keys
  {
    hide Refreshed;
  }

  /** What the last message leaves: a reply its row, with its clock. */
  ghost predicate Brought(q: seq<Down>, pRow: map<(nat, Key), PRow>, c: nat) {
    q != [] && q[|q| - 1].Reply? ==>
      (c, q[|q| - 1].key) in pRow && pRow[(c, q[|q| - 1].key)].clock == q[|q| - 1].clock
  }

  lemma {:induction false} DeliverAllOf(cfg: Config, s: State, c: nat, v: Srv) returns (more: seq<Step>, e: State)
    requires Good(cfg, s) && c < |cfg.threads| && cfg.HasServer(v) && BgOf(s.bg, c, v.chan).pc == Idle
    ensures Goes(cfg, s, more, e) && Good(cfg, e) && OnlyDown(s, e) && s.pRow.Keys <= e.pRow.Keys
    ensures forall i :: 0 <= i < |more| ==> more[i].Deliver?
    ensures Queue(e.down, c, v) == [] && Brought(Queue(s.down, c, v), e.pRow, c)
    ensures forall d: nat, u :: (d, u) != (c, v) ==> Queue(e.down, d, u) == Queue(s.down, d, u)
    decreases |Queue(s.down, c, v)|
  {
    hide Good, Goes, Queue, DoDeliver, BgOf;
    var q := Queue(s.down, c, v);
    if q == [] {
      Stay(cfg, s);
      more, e := [], s;
    } else {
      var step, next := Deliver(c, v), DoDeliver(s, c, v);
      DeliverIs(cfg, s, c, v);
      hide Can, Next;
      if q[0].Reply? {
        DeliverSteps.ReplyIsStored(s, c, v);
      }
      GoodStep(cfg, s, step);
      QueueSet(s.down, c, v, q[1..]);
      if |q| == 1 {
        Stay(cfg, next);
        more, e := [], next;
      } else {
        more, e := DeliverAllOf(cfg, next, c, v);
      }
      First(cfg, s, step, more, e);
      more := [step] + more;
    }
  }

  ghost predicate Reached(cfg: Config, srv: map<Srv, Server>, goal: nat) {
    forall v :: cfg.HasServer(v) ==> goal <= SrvOf(cfg, srv, v).vc.min
  }

  ghost predicate AllIdle(cfg: Config, bg: map<(nat, nat), Bg>, c: nat) {
    forall p: nat :: p < cfg.channels ==> BgOf(bg, c, p).pc == Idle
  }

  /** What a read needs so that its row can be brought: the servers have reached its clock, its client's workers are
      idle, and nothing is on its way to the server of the row. */
  ghost predicate Ready(cfg: Config, s: State, c: nat, key: Key, goal: nat) {
    Reached(cfg, s.srv, goal) && AllIdle(cfg, s.bg, c) && Queue(s.up, c, Home(cfg, key)) == []
  }

  lemma SettledReady(cfg: Config, s: State, c: nat, key: Key, goal: nat)
    requires Good(cfg, s) && Settled(cfg, s, goal) && c < |cfg.threads|
    ensures Ready(cfg, s, c, key, goal)
  {
    hide Good, SrvOf, BgOf, Queue, CaughtUp;
    forall v | cfg.HasServer(v) ensures goal <= SrvOf(cfg, s.srv, v).vc.min {
      SettledServers(cfg, s, goal, v);
    }
    forall p: nat | p < cfg.channels ensures BgOf(s.bg, c, p).pc == Idle {
      assert cfg.HasBg(c, p);
      assert BgDone(s, c, p);
    }
    assert cfg.HasServer(Home(cfg, key));
    assert Served(s, c, Home(cfg, key));
  }

  lemma RequestIs(cfg: Config, s: State, c: nat, key: Key, asked: int)
    requires c < |cfg.threads| && BgOf(s.bg, c, Chan(cfg, key)).pc == Idle
    ensures Can(cfg, s, BgRequest(c, key, asked))
    ensures var v := Home(cfg, key);
      Next(cfg, s, BgRequest(c, key, asked)) == s.(up := s.up[(c, v) := Queue(s.up, c, v) + [Ask(key, asked)]])
  {
    hide Queue, BgOf;
  }

  lemma AnsweredAtOnce(s: Server, push: bool, c: nat, key: Key, asked: int)
    requires asked <= s.vc.min
    ensures var r := s.OnRowRequest(push, c, key, asked);
      r.0.vc == s.vc && r.1 == [Reply(key, s.vc.min, s.Ver(c), s.RowAt(key))]
  {
  }

  /** The row is asked for at a clock that the server has, and the server answers at once. */
  lemma AskFor(cfg: Config, s: State, c: nat, key: Key, asked: int, goal: nat) returns (more: seq<Step>, e: State)
    requires Good(cfg, s) && c < |cfg.threads| && Ready(cfg, s, c, key, goal) && asked <= goal
    ensures Goes(cfg, s, more, e) && Good(cfg, e) && more == [BgRequest(c, key, asked), Serve(c, Home(cfg, key))]
    ensures SameThreads(s, e) && e.bg == s.bg && Reached(cfg, e.srv, goal)
    ensures var q := Queue(e.down, c, Home(cfg, key));
      q != [] && q[|q| - 1].Reply? && q[|q| - 1].key == key && goal <= q[|q| - 1].clock
  {
    hide Good, Goes, Queue, DoServe, SrvOf, BgOf, Server.OnRowRequest;
    var v := Home(cfg, key);
    assert cfg.HasServer(v);
    RequestIs(cfg, s, c, key, asked);
    hide Can, Next;
    var s1 := Next(cfg, s, BgRequest(c, key, asked));
    GoodStep(cfg, s, BgRequest(c, key, asked));
    QueueSet(s.up, c, v, [] + [Ask(key, asked)]);
    assert Queue(s1.up, c, v) == [Ask(key, asked)];
    ServeIs(cfg, s1, c, v);
    GoodStep(cfg, s1, Serve(c, v));
    e := DoServe(cfg, s1, c, v);
    ServeAskIs(cfg, s1, c, v, key, asked);
    var sv := SrvOf(cfg, s.srv, v);
    AnsweredAtOnce(sv, cfg.push, c, key, asked);
    QueueSet(s1.down, c, v, Queue(s1.down, c, v) + sv.OnRowRequest(cfg.push, c, key, asked).1);
    SrvSet(cfg, s1.srv, v, sv.OnRowRequest(cfg.push, c, key, asked).0);
    Stay(cfg, e);
    First(cfg, s1, Serve(c, v), [], e);
    First(cfg, s, BgRequest(c, key, asked), [Serve(c, v)] + [], e);
    more := [BgRequest(c, key, asked)] + ([Serve(c, v)] + []);
  }

  lemma {:induction false} DeliverMany(cfg: Config, s: State, c: nat, vs: set<Srv>)
    returns (more: seq<Step>, e: State)
    requires Good(cfg, s) && c < |cfg.threads| && AllIdle(cfg, s.bg, c) && forall v :: v in vs ==> cfg.HasServer(v)
    ensures Goes(cfg, s, more, e) && Good(cfg, e) && OnlyDown(s, e) && s.pRow.Keys <= e.pRow.Keys
    ensures forall i :: 0 <= i < |more| ==> more[i].Deliver?
    ensures forall v :: v in vs ==> Queue(e.down, c, v) == []
    ensures forall v :: v !in vs ==> Queue(e.down, c, v) == Queue(s.down, c, v)
    decreases |vs|
  {
    hide Can, Next, Good, Goes, Queue, BgOf;
    if vs == {} {
      Stay(cfg, s);
      more, e := [], s;
    } else {
      var v :| v in vs;
      var a, m := DeliverAllOf(cfg, s, c, v);
      var b;
      b, e := DeliverMany(cfg, m, c, vs - {v});
      Then(cfg, s, a, m, b, e);
      more := a + b;
    }
  }

  /** The system clock can go on to what every server has pushed. */
  lemma {:induction false} SysTicks(cfg: Config, s: State, c: nat, goal: nat) returns (more: seq<Step>, e: State)
    requires Good(cfg, s) && cfg.push && c < |cfg.threads|
    requires forall v :: cfg.HasServer(v) ==> goal <= ClockAt(s.pushClock, c, v)
    ensures Goes(cfg, s, more, e) && Good(cfg, e) && e == s.(sysClock := e.sysClock)
    ensures goal <= SysClockOf(e.sysClock, c) && forall i :: 0 <= i < |more| ==> more[i].SysTick?
    decreases goal - SysClockOf(s.sysClock, c)
  {
    hide Good, Goes, ClockAt;
    if goal <= SysClockOf(s.sysClock, c) {
      Stay(cfg, s);
      more, e := [], s;
    } else {
      var step := SysTick(c);
      var next := s.(sysClock := s.sysClock[c := SysClockOf(s.sysClock, c) + 1]);
      assert Can(cfg, s, step) && Next(cfg, s, step) == next;
      hide Can, Next;
      GoodStep(cfg, s, step);
      more, e := SysTicks(cfg, next, c, goal);
      First(cfg, s, step, more, e);
      more := [step] + more;
    }
  }

  lemma PushesSeen(cfg: Config, s: State, c: nat, goal: nat, v: Srv)
    requires Good(cfg, s) && cfg.push && c < |cfg.threads| && cfg.HasServer(v)
    requires Reached(cfg, s.srv, goal) && Queue(s.down, c, v) == []
    ensures goal <= ClockAt(s.pushClock, c, v)
  {
    hide Inv, PostedUp, SrvOf, Queue;
    assert SrvOf(cfg, s.srv, v).vc.min <= LastPush(ClockAt(s.pushClock, c, v), Queue(s.down, c, v));
  }

  /** The row is brought, at the clock of its server. */
  lemma BringRow(cfg: Config, s: State, t: Thread, key: Key, asked: int, goal: nat) returns (more: seq<Step>, e: State)
    requires Good(cfg, s) && cfg.HasThread(t) && Ready(cfg, s, t.client, key, goal) && asked <= goal
    ensures Goes(cfg, s, more, e) && Good(cfg, e) && AllWithout(more, t) && e.clock == s.clock
    ensures AllIdle(cfg, e.bg, t.client) && Reached(cfg, e.srv, goal)
    ensures (t.client, key) in e.pRow && goal <= e.pRow[(t.client, key)].clock
  {
    hide Can, Next, Good, Goes, Queue, SrvOf, BgOf, Reached, Ready, AllIdle;
    var c, v := t.client, Home(cfg, key);
    ReadyIdle(cfg, s, c, key, goal);
    var a, m := AskFor(cfg, s, c, key, asked, goal);
    IdleAt(cfg, m.bg, c, v.chan);
    var b;
    b, e := DeliverAllOf(cfg, m, c, v);
    Then(cfg, s, a, m, b, e);
    more := a + b;
  }

  lemma IdleAt(cfg: Config, bg: map<(nat, nat), Bg>, c: nat, p: nat)
    requires AllIdle(cfg, bg, c) && p < cfg.channels
    ensures BgOf(bg, c, p).pc == Idle
  {
  }

  /** Under SSPPush the client's system clock can go on to what all servers have reached. */
  lemma ConsumePushes(cfg: Config, s: State, t: Thread, goal: nat) returns (more: seq<Step>, e: State)
    requires Good(cfg, s) && cfg.HasThread(t) && cfg.push && AllIdle(cfg, s.bg, t.client) && Reached(cfg, s.srv, goal)
    ensures Goes(cfg, s, more, e) && AllWithout(more, t) && e.clock == s.clock && s.pRow.Keys <= e.pRow.Keys
    ensures goal <= SysClockOf(e.sysClock, t.client)
  {
    hide Can, Next, Good, Goes, Queue, SrvOf, BgOf, Reached, AllIdle;
    var vs := set h: nat, p: nat | h < |cfg.threads| && p < cfg.channels :: Srv(h, p);
    var a, m := DeliverMany(cfg, s, t.client, vs);
    forall u | cfg.HasServer(u) ensures goal <= ClockAt(m.pushClock, t.client, u) {
      assert u == Srv(u.host, u.chan) && u in vs;
      PushesSeen(cfg, m, t.client, goal, u);
    }
    var b;
    b, e := SysTicks(cfg, m, t.client, goal);
    Then(cfg, s, a, m, b, e);
    more := a + b;
  }

  /** The read passes: its row is brought, and under SSPPush the pushes are consumed. */
  lemma ReadRow(cfg: Config, s: State, t: Thread, key: Key) returns (more: seq<Step>, e: State)
    requires Good(cfg, s) && cfg.HasThread(t) && key.table < cfg.tables
    requires Ready(cfg, s, t.client, key, Clock(s.clock, t))
    ensures Goes(cfg, s, more, e) && AllWithout(more, t)
    ensures Clock(e.clock, t) == Clock(s.clock, t) && FreshEnough(cfg, e, t, key)
  {
    hide Can, Next, Good, Goes, Reached, Ready, AllIdle;
    var goal := Clock(s.clock, t);
    more, e := BringRow(cfg, s, t, key, Stalest(cfg, s, t, key.table), goal);
    if cfg.push {
      var a, m := more, e;
      var b;
      b, e := ConsumePushes(cfg, m, t, goal);
      Then(cfg, s, a, m, b, e);
      more := a + b;
    }
  }

  lemma ReadyIdle(cfg: Config, s: State, c: nat, key: Key, goal: nat)
    requires Ready(cfg, s, c, key, goal)
    ensures AllIdle(cfg, s.bg, c)
  {
  }

  // ---- Every run ----

  lemma {:induction false} EveryRunIsGood(cfg: Config, steps: seq<Step>)
    requires Legal(cfg, steps)
    ensures Good(cfg, Run(cfg, steps))
    decreases |steps|
  {
    hide Good, Can, Next;
    if steps == [] {
      InitGood(cfg);
    } else {
      var n := |steps| - 1;
      EveryRunIsGood(cfg, steps[..n]);
      GoodStep(cfg, Run(cfg, steps[..n]), steps[n]);
    }
  }

  /** Wherever a run has come to, and whatever row a thread wants to read: the run can go on, without a step of that
      thread and at the clock it has, until the check lets the read through. */
  lemma NoReadIsStuck(cfg: Config, steps: seq<Step>, t: Thread, key: Key) returns (more: seq<Step>)
    requires Legal(cfg, steps) && cfg.HasThread(t) && key.table < cfg.tables
    requires PcOf(Run(cfg, steps).pc, t) == Running
    ensures Legal(cfg, steps + more) && AllWithout(more, t)
    ensures Clock(Run(cfg, steps + more).clock, t) == Clock(Run(cfg, steps).clock, t)
    ensures FreshEnough(cfg, Run(cfg, steps + more), t, key)
  {
    hide Run, Legal, Good, Goes, Settled, Ready, FreshEnough, Without;
    EveryRunIsGood(cfg, steps);
    var s := Run(cfg, steps);
    RunningTicks(cfg, s, t);
    var a, m := Settle(cfg, s, t, Clock(s.clock, t), AllThreads(cfg) - {t});
    SettledReady(cfg, m, t.client, key, Clock(s.clock, t));
    var b, e := ReadRow(cfg, m, t, key);
    Then(cfg, s, a, m, b, e);
    RunOn(cfg, steps, a + b, e);
    more := a + b;
  }

  // ---- Updates ----

  lemma SameLog(cfg: Config, s: State, step: Step)
    requires Can(cfg, s, step) && !step.Inc? && !step.ThreadInc?
    ensures Next(cfg, s, step).log == s.log
  {
    hide DoServe, DoDeliver;
    if step.Serve? {
      ServeOnly(cfg, s, step.c, step.v);
    } else if step.Deliver? {
      DeliverSteps.DeliverState(s, step.c, step.v);
    } else if OfWorker(step) {
      WorkerLog(cfg, s, step);
    } else {
      ClientLog(cfg, s, step);
    }
  }

  lemma WorkerLog(cfg: Config, s: State, step: Step)
    requires Can(cfg, s, step) && OfWorker(step)
    ensures Next(cfg, s, step).log == s.log
  {
    hide Can;
  }

  lemma ClientLog(cfg: Config, s: State, step: Step)
    requires Can(cfg, s, step) && !step.Inc? && !step.ThreadInc? && !OfWorker(step) && !step.Serve? && !step.Deliver?
    ensures Next(cfg, s, step).log == s.log
  {
    hide Can;
  }

  lemma {:induction false} GoesLog(cfg: Config, s: State, more: seq<Step>, e: State, t: Thread)
    requires Goes(cfg, s, more, e) && AllWithout(more, t)
    ensures e.log == s.log
    decreases |more|
  {
    hide Can, Next;
    if more != [] {
      assert Without(more[0], t);
      SameLog(cfg, s, more[0]);
      GoesLog(cfg, Next(cfg, s, more[0]), more[1..], e, t);
    }
  }

  /** A clock that every update was made before. */
  function Later(log: seq<Upd>): (goal: nat)
    ensures forall i :: 0 <= i < |log| ==> log[i].clock < goal
  {
    if log == [] then 0
    else
      var n := |log| - 1;
      var before := Later(log[..n]);
      assert forall i :: 0 <= i < n ==> log[..n][i].clock < before;
      if log[n].clock < before then before else log[n].clock + 1
  }

  /** A server that has reached a clock later than every update has them all. */
  lemma ServerHasAll(cfg: Config, s: State, goal: nat, key: Key, col: int)
    requires Inv(cfg, s) && goal <= SrvOf(cfg, s.srv, Home(cfg, key)).vc.min
    requires forall i :: 0 <= i < |s.log| ==> s.log[i].clock < goal
    ensures Val(SrvOf(cfg, s.srv, Home(cfg, key)).RowAt(key).vals, col) == Conservation.Made(s.log, key, col)
  {
    hide Timing, Caches, ThreadOplogs, TableOplogs, Gathered, Batches, AllBgCells, AllOk, CellOk, Fresh, Cancelled,
         Safety.Shows, Safety.HasAllBefore, SrvOf, Server.RowAt;
    var sv := SrvOf(cfg, s.srv, Home(cfg, key));
    assert cfg.HasServer(cfg.home(key));
    ServeSteps.ServerFresh(cfg, s, Home(cfg, key));
    var cell := sv.RowAt(key);
    ReadSteps.FreshDown(s.log, s.place, key, cell.ids, sv.vc.min, goal);
    forall i: nat | i in cell.ids ensures i < |s.place| && s.place[i] != Gone && s.log[i].key == key {
      assert i in SrvOf(cfg, s.srv, Home(cfg, key)).RowAt(key).ids;
    }
    Safety.CountGone(s.log, s.place, s.gone, key, cell, goal);
    AllCounted(s.log, key, cell.vals, cell.ids + Oplog(s.gone, key).ids, goal, col);
  }

  lemma AllCounted(log: seq<Upd>, key: Key, row: Row, ids: set<nat>, goal: nat, col: int)
    requires Safety.Shows(log, key, row, ids) && Safety.HasAllBefore(log, key, ids, goal)
    requires forall i :: 0 <= i < |log| ==> log[i].clock < goal
    ensures Val(row, col) == Conservation.Made(log, key, col)
  {
    Conservation.MadeIsSum(log, key, ids, col);
  }

  lemma AllArrive(cfg: Config, s: State) returns (more: seq<Step>, e: State)
    requires Good(cfg, s)
    ensures Goes(cfg, s, more, e) && forall i :: 0 <= i < |more| ==> !more[i].Inc? && !more[i].ThreadInc?
    ensures forall key, col ::
      Val(SrvOf(cfg, e.srv, Home(cfg, key)).RowAt(key).vals, col) == Conservation.Made(s.log, key, col)
  {
    hide Can, Next, Good, Goes, Settled, SrvOf, Server.RowAt;
    var nobody, goal := Thread(|cfg.threads|, 0), Later(s.log);
    more, e := Settle(cfg, s, nobody, goal, AllThreads(cfg));
    GoesLog(cfg, s, more, e, nobody);
    forall i | 0 <= i < |more| ensures !more[i].Inc? && !more[i].ThreadInc? {
      assert Without(more[i], nobody);
    }
    forall key, col
      ensures Val(SrvOf(cfg, e.srv, Home(cfg, key)).RowAt(key).vals, col) == Conservation.Made(s.log, key, col)
    {
      assert cfg.HasServer(cfg.home(key));
      SettledServers(cfg, e, goal, Home(cfg, key));
      GoodInv(cfg, e);
      ServerHasAll(cfg, e, goal, key, col);
    }
  }

  lemma GoodInv(cfg: Config, s: State)
    requires Good(cfg, s)
    ensures Inv(cfg, s)
  {
  }

  /** Wherever a run has come to: without a new update it can go on until every server row is, in every column, the sum
      of all the deltas ever made. */
  lemma EverythingCanArrive(cfg: Config, steps: seq<Step>) returns (more: seq<Step>)
    requires Legal(cfg, steps)
    ensures Legal(cfg, steps + more) && forall i :: 0 <= i < |more| ==> !more[i].Inc? && !more[i].ThreadInc?
    ensures forall key, col ::
      Val(SrvOf(cfg, Run(cfg, steps + more).srv, Home(cfg, key)).RowAt(key).vals, col)
        == Conservation.Made(Run(cfg, steps).log, key, col)
  {
    hide Run, Legal, Good, Goes, SrvOf, Server.RowAt;
    EveryRunIsGood(cfg, steps);
    var e;
    more, e := AllArrive(cfg, Run(cfg, steps));
    RunOn(cfg, steps, more, e);
  }
}
