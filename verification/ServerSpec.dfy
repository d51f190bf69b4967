/** What one server thread does with each message, as functions on its abstract state. */
module ServerSpec {
  import opened Rows
  import opened VectorClocks

  /** Server to client: an answer to one row request, or the dirty rows pushed when the minimum clock moves. */
  datatype Down =
    | Reply(key: Key, clock: int, ver: nat, cell: Cell)
    | Push(clock: int, ver: nat, rows: map<Key, Cell>)

  /** `ver[c]` is the number of client c's batches applied so far, one more than the version number it sent. */
  datatype Server = Server(
    vc: VC,
    ver: map<int, nat>,
    rows: map<Key, Cell>,
    dirty: set<Key>,
    subs: set<(int, Key)>,
    pending: map<(int, int), seq<Key>>)
  {
    function RowAt(key: Key): Cell {
      if key in rows then rows[key] else ZERO
    }

    function Ver(c: int): nat {
      if c in ver then ver[c] else 0
    }

    /** Requests of client c that wait for `clock`, oldest first. */
    function Pend(clock: int, c: int): seq<Key> {
      if (clock, c) in pending then pending[(clock, c)] else []
    }

    /** Rows that are asked for are created as zero rows. */
    function Create(keys: set<Key>): Server {
      this.(rows := map k | k in rows.Keys + keys :: RowAt(k))
    }

    function Apply(c: int, batch: map<Key, Cell>): Server {
      this.(ver := ver[c := Ver(c) + 1],
            rows := map k | k in rows.Keys + batch.Keys ::
              if k in batch then Merge(RowAt(k), batch[k]) else rows[k],
            dirty := dirty + batch.Keys)
    }

    /** The requests that wait for exactly the current minimum. */
    function Ready(): set<(int, Key)> {
      set w, k | w in pending && w.0 == vc.min && k in pending[w] :: (w.1, k)
    }

    function Fulfil(push: bool): Server {
      var ready := Ready();
      Create(set r | r in ready :: r.1).(
        subs := if push then subs + ready else subs,
        pending := map w | w in pending && w.0 != vc.min :: pending[w])
    }

    function RepliesTo(c: int): seq<Down> {
      seq(|Pend(vc.min, c)|, i requires 0 <= i < |Pend(vc.min, c)| =>
        var key := Pend(vc.min, c)[i];
        Reply(key, vc.min, Ver(c), RowAt(key)))
    }

    function PushTo(c: int): Down {
      Push(vc.min, Ver(c), map k | k in dirty && (c, k) in subs :: RowAt(k))
    }

    function Cleaned(): Server {
      this.(dirty := dirty - set w | w in subs :: w.1)
    }

    function OnRowRequest(push: bool, c: int, key: Key, clock: int): (Server, seq<Down>) {
      if vc.min < clock then
        (this.(pending := pending[(clock, c) := Pend(clock, c) + [key]]), [])
      else
        (Create({key}).(subs := if push then subs + {(c, key)} else subs),
         [Reply(key, vc.min, Ver(c), RowAt(key))])
    }

    /** Apply first, then clock. */
    function Clocked(c: int, isClock: bool, bgClock: int, batch: map<Key, Cell>): Server {
      var s := Apply(c, batch);
      if isClock && c in vc.clk then s.(vc := vc.TickUntil(c, bgClock)) else s
    }

    function OnOpLog(push: bool, c: int, isClock: bool, bgClock: int, batch: map<Key, Cell>): Server {
      var s := Clocked(c, isClock, bgClock, batch);
      if s.vc.min == vc.min then s
      else if push then s.Fulfil(push).Cleaned()
      else s.Fulfil(push)
    }

    /** What client `to` is sent while an oplog message is handled: the replies, then the push. */
    function OutTo(push: bool, c: int, isClock: bool, bgClock: int, batch: map<Key, Cell>, to: int): seq<Down> {
      var s := Clocked(c, isClock, bgClock, batch);
      if s.vc.min == vc.min then []
      else s.RepliesTo(to) + if push then [s.Fulfil(push).PushTo(to)] else []
    }
  }

  // ---- Deferred reads over whole runs of one server ----

  datatype Event =
    | RowRequest(c: int, key: Key, clock: int)
    | OpLog(c: int, isClock: bool, bgClock: int, batch: map<Key, Cell>)

  function Step(s: Server, push: bool, e: Event): Server {
    match e
    case RowRequest(c, key, clock) => s.OnRowRequest(push, c, key, clock).0
    case OpLog(c, isClock, bgClock, batch) => s.OnOpLog(push, c, isClock, bgClock, batch)
  }

  function After(s: Server, push: bool, es: seq<Event>): Server {
    if es == [] then s else Step(After(s, push, es[..|es| - 1]), push, es[|es| - 1])
  }

  /** What client `c` is sent in reaction to one event. */
  function SentBy(s: Server, push: bool, e: Event, c: int): seq<Down> {
    match e
    case RowRequest(d, key, clock) => if d == c then s.OnRowRequest(push, d, key, clock).1 else []
    case OpLog(d, isClock, bgClock, batch) => s.OutTo(push, d, isClock, bgClock, batch, c)
  }

  function Sent(s: Server, push: bool, es: seq<Event>, c: int): seq<Down> {
    if es == [] then []
    else
      var n := |es| - 1;
      Sent(s, push, es[..n], c) + SentBy(After(s, push, es[..n]), push, es[n], c)
  }

  /** Every clock message comes from a known client and raises its clock by exactly one. */
  ghost predicate ByOne(s: Server, e: Event) {
    e.OpLog? ==> e.c in s.vc.clk && (e.isClock ==> e.bgClock == s.vc.clk[e.c] + 1)
  }

  ghost predicate ByOnes(s: Server, push: bool, es: seq<Event>) {
    forall n :: 0 <= n < |es| ==> ByOne(After(s, push, es[..n]), es[n])
  }

  /** Nobody waits for a clock the server has already reached. */
  ghost predicate NoneStranded(s: Server) {
    forall clock, c :: s.Pend(clock, c) != [] ==> s.vc.min < clock
  }

  function Count(ks: seq<Key>, key: Key): nat {
    if ks == [] then 0 else Count(ks[..|ks| - 1], key) + if ks[|ks| - 1] == key then 1 else 0
  }

  /** How many times client c asked for `key`. */
  function Asked(es: seq<Event>, c: int, key: Key): nat {
    if es == [] then 0
    else
      var e := es[|es| - 1];
      Asked(es[..|es| - 1], c, key) + if e.RowRequest? && e.c == c && e.key == key then 1 else 0
  }

  /** How many replies for `key` a stream of messages holds. */
  function Answers(ds: seq<Down>, key: Key): nat {
    if ds == [] then 0
    else
      var d := ds[|ds| - 1];
      Answers(ds[..|ds| - 1], key) + if d.Reply? && d.key == key then 1 else 0
  }

  /** How many requests of client c for `key` wait for a clock below `bound`. */
  function Waiting(s: Server, c: int, key: Key, bound: nat): nat {
    if bound == 0 then 0 else Waiting(s, c, key, bound - 1) + Count(s.Pend(bound - 1, c), key)
  }

  lemma {:induction false} AnswersConcat(a: seq<Down>, b: seq<Down>, key: Key)
    ensures Answers(a + b, key) == Answers(a, key) + Answers(b, key)
  {
    if b == [] {
      assert a + b == a;
    } else {
      AnswersConcat(a, b[..|b| - 1], key);
      assert (a + b)[..|a + b| - 1] == a + b[..|b| - 1];
    }
  }

  lemma {:induction false} AnswersOfReplies(ks: seq<Key>, ds: seq<Down>, key: Key)
    requires |ds| == |ks|
    requires forall i :: 0 <= i < |ks| ==> ds[i].Reply? && ds[i].key == ks[i]
    ensures Answers(ds, key) == Count(ks, key)
  {
    if ks != [] {
      AnswersOfReplies(ks[..|ks| - 1], ds[..|ds| - 1], key);
    }
  }

  lemma {:induction false} WaitingSame(s: Server, t: Server, c: int, key: Key, bound: nat)
    requires forall clock :: 0 <= clock < bound ==> s.Pend(clock, c) == t.Pend(clock, c)
    ensures Waiting(s, c, key, bound) == Waiting(t, c, key, bound)
  {
    if bound > 0 {
      WaitingSame(s, t, c, key, bound - 1);
    }
  }

  /** Changing the requests that wait for one clock changes the number that wait by the same amount. */
  lemma {:induction false} WaitingChange(s: Server, t: Server, c: int, key: Key, at: int, bound: nat)
    requires 0 <= at < bound
    requires forall clock :: 0 <= clock < bound && clock != at ==> s.Pend(clock, c) == t.Pend(clock, c)
    ensures Waiting(t, c, key, bound) - Waiting(s, c, key, bound)
         == Count(t.Pend(at, c), key) - Count(s.Pend(at, c), key)
  {
    if bound - 1 == at {
      WaitingSame(s, t, c, key, bound - 1);
    } else {
      WaitingChange(s, t, c, key, at, bound - 1);
    }
  }

  ghost predicate StepOk(s: Server, push: bool, e: Event, c: int, key: Key, bound: nat) {
    var t := Step(s, push, e);
    && t.vc.Valid() && NoneStranded(t)
    && s.vc.min <= t.vc.min <= s.vc.min + 1
    && Waiting(t, c, key, bound) + Answers(SentBy(s, push, e, c), key)
       == Waiting(s, c, key, bound) + if e.RowRequest? && e.c == c && e.key == key then 1 else 0
  }

  lemma PendAfterRequest(s: Server, push: bool, e: Event, at: int, who: int)
    requires e.RowRequest?
    ensures Step(s, push, e).Pend(at, who)
         == s.Pend(at, who) + if s.vc.min < e.clock && (at, who) == (e.clock, e.c) then [e.key] else []
  {
  }

  lemma PendAfterOpLog(s: Server, push: bool, e: Event, at: int, who: int)
    requires e.OpLog?
    ensures var m := s.Clocked(e.c, e.isClock, e.bgClock, e.batch).vc.min;
      Step(s, push, e).Pend(at, who) == if m != s.vc.min && at == m then [] else s.Pend(at, who)
  {
  }

  lemma RequestStep(s: Server, push: bool, e: Event, c: int, key: Key, bound: nat)
    requires s.vc.Valid() && NoneStranded(s) && e.RowRequest? && e.clock < bound
    ensures StepOk(s, push, e, c, key, bound)
  {
    var t := Step(s, push, e);
    forall at, who ensures t.Pend(at, who) != [] ==> t.vc.min < at {
      PendAfterRequest(s, push, e, at, who);
    }
    if e.c == c {
      RequestCount(s, push, e, key, bound);
    } else {
      forall at | 0 <= at < bound ensures t.Pend(at, c) == s.Pend(at, c) {
        PendAfterRequest(s, push, e, at, c);
      }
      WaitingSame(s, t, c, key, bound);
    }
  }

  lemma Queued(s: Server, t: Server, c: int, key: Key, clock: int, asked: Key, bound: nat)
    requires 0 <= clock < bound
    requires forall at :: 0 <= at < bound ==> t.Pend(at, c) == s.Pend(at, c) + if at == clock then [asked] else []
    ensures Waiting(t, c, key, bound) == Waiting(s, c, key, bound) + if asked == key then 1 else 0
  {
    var was := s.Pend(clock, c);
    assert t.Pend(clock, c) == was + [asked];
    assert (was + [asked])[..|was|] == was;
    WaitingChange(s, t, c, key, clock, bound);
  }

  /** One more request either waits or is answered. */
  lemma RequestCount(s: Server, push: bool, e: Event, key: Key, bound: nat)
    requires s.vc.Valid() && e.RowRequest? && e.clock < bound
    ensures Waiting(Step(s, push, e), e.c, key, bound) + Answers(SentBy(s, push, e, e.c), key)
         == Waiting(s, e.c, key, bound) + if e.key == key then 1 else 0
  {
    var t := Step(s, push, e);
    forall at
      ensures t.Pend(at, e.c) == s.Pend(at, e.c) + if s.vc.min < e.clock && at == e.clock then [e.key] else []
    {
      PendAfterRequest(s, push, e, at, e.c);
    }
    if s.vc.min < e.clock {
      Queued(s, t, e.c, key, e.clock, e.key, bound);
    } else {
      WaitingSame(s, t, e.c, key, bound);
      assert SentBy(s, push, e, e.c)[..0] == [];
    }
  }

  lemma OpLogStep(s: Server, push: bool, e: Event, c: int, key: Key, bound: nat)
    requires s.vc.Valid() && NoneStranded(s) && e.OpLog? && ByOne(s, e) && s.vc.min + 1 < bound
    ensures StepOk(s, push, e, c, key, bound)
  {
    var t := Step(s, push, e);
    if e.isClock {
      TickUntilByOne(s.vc, e.c);
      TickValid(s.vc, e.c);
    }
    var m := s.Clocked(e.c, e.isClock, e.bgClock, e.batch);
    forall at, who
      ensures t.Pend(at, who) == if m.vc.min != s.vc.min && at == m.vc.min then [] else s.Pend(at, who)
    {
      PendAfterOpLog(s, push, e, at, who);
    }
    if m.vc.min == s.vc.min {
      WaitingSame(s, t, c, key, bound);
    } else {
      Released(s, m, push, c, key);
      WaitingChange(s, t, c, key, m.vc.min, bound);
    }
  }

  /** The replies sent when the minimum moves are as many as the requests that waited for it. */
  lemma Released(s: Server, m: Server, push: bool, c: int, key: Key)
    requires m.pending == s.pending
    ensures Answers(m.RepliesTo(c) + if push then [m.Fulfil(push).PushTo(c)] else [], key)
         == Count(s.Pend(m.vc.min, c), key)
  {
    var pushed := if push then [m.Fulfil(push).PushTo(c)] else [];
    AnswersConcat(m.RepliesTo(c), pushed, key);
    assert push ==> pushed[..0] == [];
    AnswersOfReplies(m.Pend(m.vc.min, c), m.RepliesTo(c), key);
  }

  /** A reply carries at least the clock that was asked for: a request is answered at once only by a server that
      has that clock, and a request that had to wait is answered when the minimum becomes the clock it waits for. */
  lemma AnswersAreFreshEnough(s: Server, push: bool, e: Event, c: int, n: nat)
    requires s.vc.Valid() && NoneStranded(s) && ByOne(s, e)
    requires n < |SentBy(s, push, e, c)| && SentBy(s, push, e, c)[n].Reply?
    ensures var d := SentBy(s, push, e, c)[n];
      && (e.RowRequest? ==> e.c == c && e.key == d.key && e.clock <= d.clock)
      && (e.OpLog? ==> n < |s.Pend(d.clock, c)| && s.Pend(d.clock, c)[n] == d.key)
  {
    if e.OpLog? && e.isClock {
      TickUntilByOne(s.vc, e.c);
    }
  }

  lemma StepKeeps(s: Server, push: bool, e: Event, c: int, key: Key, bound: nat)
    requires s.vc.Valid() && NoneStranded(s) && ByOne(s, e) && s.vc.min + 1 < bound
    requires e.RowRequest? ==> e.clock < bound
    ensures StepOk(s, push, e, c, key, bound)
  {
    hide NoneStranded, ByOne, StepOk;
    if e.RowRequest? {
      RequestStep(s, push, e, c, key, bound);
    } else {
      OpLogStep(s, push, e, c, key, bound);
    }
  }

  lemma ByOnesPrefix(s: Server, push: bool, es: seq<Event>)
    requires es != [] && ByOnes(s, push, es)
    ensures ByOnes(s, push, es[..|es| - 1])
  {
    var n := |es| - 1;
    forall i | 0 <= i < n ensures ByOne(After(s, push, es[..n][..i]), es[..n][i]) {
      assert es[..n][..i] == es[..i];
    }
  }

  /** In every run in which clocks advance one per message: nobody is left waiting for a clock already reached;
      and every request is either still waiting or was answered, once. */
  lemma {:induction false} EveryReadIsAnsweredOnce(
    s: Server, push: bool, es: seq<Event>, c: int, key: Key, bound: nat)
    requires s.vc.Valid() && s.pending == map[] && ByOnes(s, push, es)
    requires forall n :: 0 <= n < |es| && es[n].RowRequest? ==> es[n].clock < bound
    requires s.vc.min + |es| + 1 < bound
    ensures After(s, push, es).vc.Valid() && NoneStranded(After(s, push, es))
    ensures Asked(es, c, key)
         == Answers(Sent(s, push, es, c), key) + Waiting(After(s, push, es), c, key, bound)
    ensures After(s, push, es).vc.min <= s.vc.min + |es|
  {
    if es == [] {
      NothingWaits(s, c, key, bound);
    } else {
      var n := |es| - 1;
      ByOnesPrefix(s, push, es);
      EveryReadIsAnsweredOnce(s, push, es[..n], c, key, bound);
      var before := After(s, push, es[..n]);
      assert ByOne(before, es[n]);
      StepKeeps(before, push, es[n], c, key, bound);
      hide ByOne, Waiting, NoneStranded, Step, SentBy, Answers;
      AnswersConcat(Sent(s, push, es[..n], c), SentBy(before, push, es[n], c), key);
    }
  }

  lemma {:induction false} NothingWaits(s: Server, c: int, key: Key, bound: nat)
    requires s.pending == map[]
    ensures Waiting(s, c, key, bound) == 0
  {
    if bound > 0 {
      NothingWaits(s, c, key, bound - 1);
      assert s.Pend(bound - 1, c) == [];
    }
  }

  /** A clock message strands a read exactly when it moves the minimum over a clock that somebody waits for. */
  lemma ClockStrandsIff(s: Server, push: bool, c: int, bgClock: int, batch: map<Key, Cell>)
    requires s.vc.Valid() && NoneStranded(s) && c in s.vc.clk
    ensures var m := s.vc.TickUntil(c, bgClock).min;
      NoneStranded(s.OnOpLog(push, c, true, bgClock, batch)) <==>
      (forall clock, d :: s.vc.min < clock < m ==> s.Pend(clock, d) == [])
  {
    var t := s.OnOpLog(push, c, true, bgClock, batch);
    TickUntilValid(s.vc, c, bgClock);
    forall clock, d
      ensures t.Pend(clock, d) == if t.vc.min != s.vc.min && clock == t.vc.min then [] else s.Pend(clock, d)
    {
    }
  }

  /** A read waiting for a clock that the server has passed is never answered, whatever happens next. */
  lemma {:induction false} StrandedForever(s: Server, push: bool, es: seq<Event>, clock: int, c: int)
    requires s.vc.Valid() && clock < s.vc.min
    ensures After(s, push, es).vc.Valid() && s.vc.min <= After(s, push, es).vc.min
    ensures After(s, push, es).Pend(clock, c) == s.Pend(clock, c)
  {
    if es != [] {
      var n := |es| - 1;
      StrandedForever(s, push, es[..n], clock, c);
      var t := After(s, push, es[..n]);
      if es[n].OpLog? && es[n].c in t.vc.clk {
        TickUntilValid(t.vc, es[n].c, es[n].bgClock);
      }
    }
  }

  /** A server of two clients, 0 and 1, that nobody has sent anything to. */
  const TWO_CLIENTS := Server(VC(map[0 := 0, 1 := 0], 0), map[], map[], {}, {}, map[])

  /** Client 0 has finished two iterations and reads at clock 1. */
  function OneAhead(key: Key): seq<Event> {
    [OpLog(0, true, 1, map[]), OpLog(0, true, 2, map[]), RowRequest(0, key, 1)]
  }

  const JUMP := OpLog(1, true, 2, map[])

  /** How a jump strands a read: client 1 goes from clock 0 to 2 in one message, the minimum passes 1, and the read that
      waits for 1 is never answered. */
  lemma JumpStrands(push: bool, key: Key, more: seq<Event>)
    ensures var s, t := After(TWO_CLIENTS, push, OneAhead(key)), After(TWO_CLIENTS, push, OneAhead(key) + [JUMP]);
      && NoneStranded(s) && s.Pend(1, 0) == [key]
      && !NoneStranded(t) && t.vc.min == 2
      && After(t, push, more).Pend(1, 0) == [key]
  {
    hide After, Server.OnOpLog, NoneStranded;
    var s := OneAheadState(push, key);
    AfterOne(TWO_CLIENTS, push, OneAhead(key), JUMP);
    var t := s.OnOpLog(push, 1, true, 2, map[]);
    Jumped(s, push, key);
    StrandedForever(t, push, more, 1, 0);
  }

  lemma AfterOne(s: Server, push: bool, es: seq<Event>, e: Event)
    ensures After(s, push, es + [e]) == Step(After(s, push, es), push, e)
  {
    assert (es + [e])[..|es|] == es;
  }

  lemma OneAheadState(push: bool, key: Key) returns (s: Server)
    ensures s == After(TWO_CLIENTS, push, OneAhead(key))
    ensures s.vc == VC(map[0 := 2, 1 := 0], 0) && s.vc.Valid() && s.pending == map[(1, 0) := [key]] && NoneStranded(s)
  {
    hide After, Server.OnOpLog, NoneStranded, VC.TickUntil;
    var e1, e2, e3 := OpLog(0, true, 1, map[]), OpLog(0, true, 2, map[]), RowRequest(0, key, 1);
    NoEvents(TWO_CLIENTS, push);
    AfterOne(TWO_CLIENTS, push, [], e1);
    AfterOne(TWO_CLIENTS, push, [e1], e2);
    AfterOne(TWO_CLIENTS, push, [e1, e2], e3);
    assert [] + [e1] == [e1] && [e1] + [e2] == [e1, e2] && [e1, e2] + [e3] == OneAhead(key);
    var s1 := Step(TWO_CLIENTS, push, e1);
    FastClient(TWO_CLIENTS, push, 0);
    var s2 := Step(s1, push, e2);
    FastClient(s1, push, 1);
    s := Step(s2, push, e3);
    assert s.vc.clk[1] == 0;
    assert s2.Pend(1, 0) + [key] == [key];
    assert s.pending == map[(1, 0) := [key]];
    OneWaits(s, key);
  }

  lemma FastClient(s: Server, push: bool, n: nat)
    requires s.vc == VC(map[0 := n, 1 := 0], 0) && s.pending == map[]
    ensures var t := s.OnOpLog(push, 0, true, n + 1, map[]);
      t.vc == VC(map[0 := n + 1, 1 := 0], 0) && t.pending == map[]
  {
    assert s.vc.clk[0] == n && s.vc.clk[1] == 0;
    TickUntilByOne(s.vc, 0);
    assert s.vc.clk[0 := n + 1] == map[0 := n + 1, 1 := 0];
  }

  lemma OneWaits(s: Server, key: Key)
    requires s.vc.min == 0 && s.pending == map[(1, 0) := [key]]
    ensures NoneStranded(s)
  {
  }

  lemma NoEvents(s: Server, push: bool)
    ensures After(s, push, []) == s
  {
  }

  lemma Jumped(s: Server, push: bool, key: Key)
    requires s.vc == VC(map[0 := 2, 1 := 0], 0) && s.pending == map[(1, 0) := [key]]
    ensures var t := s.OnOpLog(push, 1, true, 2, map[]);
      t.vc.Valid() && t.vc.min == 2 && t.Pend(1, 0) == [key] && !NoneStranded(t)
  {
    assert s.vc.clk[1] == 0;
    TickUntilValid(s.vc, 1, 2);
    var t := s.OnOpLog(push, 1, true, 2, map[]);
    assert t.vc.clk[0] == 2 && t.vc.clk[1] == 2;
    PendAfterOpLog(s, push, JUMP, 1, 0);
  }

  // ---- What the counters count ----

  ghost function Requests(es: seq<Event>, c: int, key: Key): set<nat> {
    set n: nat | n < |es| && es[n].RowRequest? && es[n].c == c && es[n].key == key
  }

  ghost function Replies(ds: seq<Down>, key: Key): set<nat> {
    set n: nat | n < |ds| && ds[n].Reply? && ds[n].key == key
  }

  /** The places of the requests that wait for a clock below `bound`: the clock, and the position in its list. */
  ghost function Places(s: Server, c: int, key: Key, bound: nat): set<(nat, nat)> {
    set clock: nat, i: nat | clock < bound && i < |s.Pend(clock, c)| && s.Pend(clock, c)[i] == key :: (clock, i)
  }

  lemma {:induction false} AskedIs(es: seq<Event>, c: int, key: Key)
    ensures Asked(es, c, key) == |Requests(es, c, key)|
  {
    if es == [] {
      assert Requests(es, c, key) == {};
    } else {
      var n := |es| - 1;
      AskedIs(es[..n], c, key);
      var more := if es[n].RowRequest? && es[n].c == c && es[n].key == key then {n} else {};
      assert Requests(es, c, key) == Requests(es[..n], c, key) + more;
    }
  }

  lemma {:induction false} AnswersAre(ds: seq<Down>, key: Key)
    ensures Answers(ds, key) == |Replies(ds, key)|
  {
    if ds == [] {
      assert Replies(ds, key) == {};
    } else {
      var n := |ds| - 1;
      AnswersAre(ds[..n], key);
      assert Replies(ds, key) == Replies(ds[..n], key) + if ds[n].Reply? && ds[n].key == key then {n} else {};
    }
  }

  ghost function PlacesAt(ks: seq<Key>, key: Key, clock: nat): set<(nat, nat)> {
    set i: nat | i < |ks| && ks[i] == key :: (clock, i)
  }

  lemma {:induction false} CountIs(ks: seq<Key>, key: Key, clock: nat)
    ensures Count(ks, key) == |PlacesAt(ks, key, clock)|
  {
    if ks == [] {
      assert PlacesAt(ks, key, clock) == {};
    } else {
      var n := |ks| - 1;
      CountIs(ks[..n], key, clock);
      var before, now := PlacesAt(ks[..n], key, clock), PlacesAt(ks, key, clock);
      forall p ensures p in now <==> p in before || (ks[n] == key && p == (clock, n)) {
        if p in before {
          var i: nat :| i < n && ks[..n][i] == key && p == (clock, i);
          assert ks[i] == key;
        }
        if p in now {
          var i: nat :| i < |ks| && ks[i] == key && p == (clock, i);
          assert i < n ==> ks[..n][i] == key;
        }
      }
      assert now == if ks[n] == key then before + {(clock, n)} else before;
      assert (clock, n) !in before;
    }
  }

  lemma {:induction false} WaitingIs(s: Server, c: int, key: Key, bound: nat)
    ensures Waiting(s, c, key, bound) == |Places(s, c, key, bound)|
  {
    hide Places, PlacesAt, Count, Server.Pend;
    if bound == 0 {
      NoPlaces(s, c, key);
    } else {
      WaitingIs(s, c, key, bound - 1);
      CountIs(s.Pend(bound - 1, c), key, bound - 1);
      PlacesSplit(s, c, key, bound);
    }
  }

  lemma NoPlaces(s: Server, c: int, key: Key)
    ensures Places(s, c, key, 0) == {}
  {
  }

  lemma PlacesSplit(s: Server, c: int, key: Key, bound: nat)
    requires bound > 0
    ensures var before, here := Places(s, c, key, bound - 1), PlacesAt(s.Pend(bound - 1, c), key, bound - 1);
      && Places(s, c, key, bound) == before + here
      && |Places(s, c, key, bound)| == |before| + |here|
  {
    hide Server.Pend;
    var before, here := Places(s, c, key, bound - 1), PlacesAt(s.Pend(bound - 1, c), key, bound - 1);
    assert Places(s, c, key, bound) == before + here;
    assert before !! here;
    hide Places, PlacesAt;
    assert |before + here| == |before| + |here|;
  }

  /** The requests of a client for a row, counted one by one, are as many as the replies it was sent and the places in
      which one still waits. */
  lemma EachReadCounts(s: Server, push: bool, es: seq<Event>, c: int, key: Key, bound: nat)
    requires s.vc.Valid() && s.pending == map[] && ByOnes(s, push, es)
    requires forall n :: 0 <= n < |es| && es[n].RowRequest? ==> es[n].clock < bound
    requires s.vc.min + |es| + 1 < bound
    ensures |Requests(es, c, key)| == |Replies(Sent(s, push, es, c), key)| + |Places(After(s, push, es), c, key, bound)|
  {
    hide After, Sent, Requests, Replies, Places, ByOnes;
    EveryReadIsAnsweredOnce(s, push, es, c, key, bound);
    AskedIs(es, c, key);
    AnswersAre(Sent(s, push, es, c), key);
    WaitingIs(After(s, push, es), c, key, bound);
  }
}
