/** The push that sends only part of the dirty rows. It first adds up how many bytes each client is going to get, and
    then fills buffers of exactly that size. */
module PartialPush {
  import opened Codec
  import opened PushFormat
  import opened RecordBuffs
  import opened PushRows
  import opened PushSender

  // ---- Buffers that are filled according to a plan ----

  /** Each buffer holds a part of its plan, and is as long as the whole plan. A client that gets nothing has an empty
      plan; it stands for a client without a buffer, and is never written to. */
  ghost predicate Planned(buffs: seq<RecordBuff>, plan: seq<seq<GoodTok>>)
    reads buffs, Mems(buffs)
  {
    && Apart(buffs) && |plan| == |buffs|
    && (forall c :: 0 <= c < |buffs| ==> PlannedAt(buffs[c], plan[c]))
  }

  ghost predicate PlannedAt(buff: RecordBuff, plan: seq<GoodTok>)
    reads buff, buff.mem
  {
    buff.Valid() && buff.mem.Length == |EncAll(plan)|
  }

  /** What is next in the plan fits. */
  lemma NextFits(buff: RecordBuff, plan: seq<GoodTok>, tok: GoodTok)
    requires PlannedAt(buff, plan) && buff.toks + [tok] <= plan
    ensures buff.offset + |Enc(tok)| <= buff.mem.Length
  {
    hide EncAll, Enc;
    var n := |buff.toks|;
    assert buff.offset == |EncAll(buff.toks)|;
    Push(buff.toks, tok);
    assert plan[..n + 1] == buff.toks + [tok];
    Prefix(plan, n + 1);
  }

  /** A buffer whose plan is done is exactly full. */
  lemma DoneIsFull(buff: RecordBuff, plan: seq<GoodTok>)
    requires PlannedAt(buff, plan) && buff.toks == plan
    ensures buff.offset == buff.mem.Length && buff.mem[..] == EncAll(plan)
  {
    assert buff.offset == |EncAll(buff.toks)|;
  }

  lemma {:induction false} Prefix(toks: seq<GoodTok>, k: nat)
    requires k <= |toks|
    ensures |EncAll(toks[..k])| <= |EncAll(toks)|
  {
    var rest := Split(toks, k);
  }

  /** One write to one buffer, as planned. */
  method PutNext(buffs: seq<RecordBuff>, c: nat, ghost tok: GoodTok, x: int, ghost plan: seq<seq<GoodTok>>)
    requires Planned(buffs, plan) && c < |buffs| && IsInt32(x) && Enc(tok) == Enc32(x)
    requires buffs[c].toks + [tok] <= plan[c]
    modifies buffs[c], buffs[c].mem
    ensures Planned(buffs, plan) && Toks(buffs) == old(Toks(buffs))[c := old(buffs[c].toks) + [tok]]
  {
    NextFits(buffs[c], plan[c], tok);
    ghost var toks := Toks(buffs);
    hide Enc, Enc32, RecordBuff.Valid, EncAll;
    var suc := buffs[c].PutInt32(tok, x);
    Framed(buffs, c, plan, toks);
  }

  method AppendNext(buffs: seq<RecordBuff>, c: nat, id: int, data: seq<byte>, ghost plan: seq<seq<GoodTok>>)
    requires Planned(buffs, plan) && c < |buffs| && TokOk(Row(id, data))
    requires buffs[c].toks + [Row(id, data)] <= plan[c]
    modifies buffs[c], buffs[c].mem
    ensures Planned(buffs, plan) && Toks(buffs) == old(Toks(buffs))[c := old(buffs[c].toks) + [Row(id, data)]]
  {
    NextFits(buffs[c], plan[c], Row(id, data));
    ghost var toks := Toks(buffs);
    EncLength(Row(id, data));
    hide Enc, Enc32, RecordBuff.Valid, EncAll;
    var suc := buffs[c].Append(id, data);
    Framed(buffs, c, plan, toks);
  }

  lemma Framed(buffs: seq<RecordBuff>, c: nat, plan: seq<seq<GoodTok>>, toks: seq<seq<GoodTok>>)
    requires |plan| == |buffs| == |toks| && c < |buffs| && PlannedAt(buffs[c], plan[c]) && Apart(buffs)
    requires forall d :: 0 <= d < |buffs| && d != c ==> PlannedAt(buffs[d], plan[d]) && buffs[d].toks == toks[d]
    ensures Planned(buffs, plan) && Toks(buffs) == toks[c := buffs[c].toks]
  {
    hide PlannedAt;
  }

  // ---- The plan ----

  /** The rows of one table that were picked to be sent, by their position. */
  datatype Pick = Pick(table: int, snap: seq<RowState>, rows: seq<nat>) {
    predicate Valid() {
      && TokOk(Table(table))
      && (forall i :: 0 <= i < |snap| ==> TokOk(Row(snap[i].id, snap[i].data)))
      && (forall k :: 0 <= k < |rows| ==> rows[k] < |snap| && snap[rows[k]].Due())
      && (forall j, k :: 0 <= j < k < |rows| ==> rows[j] != rows[k])
    }

    /** The picked rows that client c subscribes to, as tokens, as items and in bytes. */
    function Toks(n: nat, c: nat): seq<GoodTok>
      requires Valid() && n <= |rows|
    {
      if n == 0 then []
      else
        var r := snap[rows[n - 1]];
        Toks(n - 1, c) + if c in r.subs then [Row(r.id, r.data)] else []
    }

    function Items(n: nat, c: nat): seq<Item>
      requires Valid() && n <= |rows|
    {
      if n == 0 then []
      else
        var r := snap[rows[n - 1]];
        Items(n - 1, c) + if c in r.subs then [Item(table, r.id, r.data)] else []
    }

    function Size(n: nat, c: nat): nat
      requires Valid() && n <= |rows|
    {
      if n == 0 then 0
      else
        var r := snap[rows[n - 1]];
        Size(n - 1, c) + if c in r.subs then |r.data| + 4 + 8 else 0
    }

    /** Everything that is written of the table: its id, the rows, and what ends it. */
    function Piece(c: nat, last: bool): seq<GoodTok>
      requires Valid()
    {
      [Table(table)] + Toks(|rows|, c) + [if last then Tok.End else Separator]
    }
  }

  predicate AllPicksValid(ps: seq<Pick>) {
    forall i {:trigger ps[i]} :: 0 <= i < |ps| ==> ps[i].Valid()
  }

  function Plan(ps: seq<Pick>, n: nat, c: nat): seq<GoodTok>
    requires n <= |ps| && AllPicksValid(ps)
  {
    if n == 0 then [] else Plan(ps, n - 1, c) + ps[n - 1].Piece(c, n == |ps|)
  }

  function TotalSize(ps: seq<Pick>, n: nat, c: nat): nat
    requires n <= |ps| && AllPicksValid(ps)
  {
    if n == 0 then 0 else TotalSize(ps, n - 1, c) + ps[n - 1].Size(|ps[n - 1].rows|, c)
  }

  function AllItems(ps: seq<Pick>, n: nat, c: nat): seq<Item>
    requires n <= |ps| && AllPicksValid(ps)
  {
    if n == 0 then [] else AllItems(ps, n - 1, c) + ps[n - 1].Items(|ps[n - 1].rows|, c)
  }

  /** A client's items of a table are the picked rows that it subscribes to. */
  lemma {:induction false} PickedIff(p: Pick, n: nat, c: nat, item: Item)
    requires p.Valid() && n <= |p.rows|
    ensures item in p.Items(n, c) <==>
      exists k :: 0 <= k < n && c in p.snap[p.rows[k]].subs
                  && item == Item(p.table, p.snap[p.rows[k]].id, p.snap[p.rows[k]].data)
  {
    if n > 0 {
      PickedIff(p, n - 1, c, item);
    }
  }

  ghost function Subscribed(p: Pick, n: nat, c: nat): set<nat>
    requires p.Valid() && n <= |p.rows|
  {
    set k: nat | k < n && c in p.snap[p.rows[k]].subs
  }

  /** And they are as many as there are such rows, so that each is there once. */
  lemma {:induction false} PickedCount(p: Pick, n: nat, c: nat)
    requires p.Valid() && n <= |p.rows|
    ensures |p.Items(n, c)| == |Subscribed(p, n, c)|
  {
    if n == 0 {
      assert Subscribed(p, 0, c) == {};
    } else {
      PickedCount(p, n - 1, c);
      SubscribedNext(p, n, c);
      hide Subscribed;
    }
  }

  lemma SubscribedNext(p: Pick, n: nat, c: nat)
    requires p.Valid() && 0 < n <= |p.rows|
    ensures |Subscribed(p, n, c)| == |Subscribed(p, n - 1, c)| + if c in p.snap[p.rows[n - 1]].subs then 1 else 0
  {
    var before := Subscribed(p, n - 1, c);
    assert Subscribed(p, n, c) == before + if c in p.snap[p.rows[n - 1]].subs then {n - 1} else {};
  }

  ghost predicate PickedAt(ps: seq<Pick>, c: nat, item: Item, m: nat, k: nat)
    requires AllPicksValid(ps)
  {
    && m < |ps| && k < |ps[m].rows| && c in ps[m].snap[ps[m].rows[k]].subs
    && item == Item(ps[m].table, ps[m].snap[ps[m].rows[k]].id, ps[m].snap[ps[m].rows[k]].data)
  }

  /** What a client is sent of all tables are the picked rows that it subscribes to. */
  lemma {:induction false} AllPickedIff(ps: seq<Pick>, n: nat, c: nat, item: Item)
    requires n <= |ps| && AllPicksValid(ps)
    ensures item in AllItems(ps, n, c) <==> exists m: nat, k: nat :: m < n && PickedAt(ps, c, item, m, k)
  {
    if n > 0 {
      AllPickedIff(ps, n - 1, c, item);
      var p := ps[n - 1];
      assert p.Valid();
      hide Pick.Valid, Pick.Items;
      PickedIff(p, |p.rows|, c, item);
      if item in p.Items(|p.rows|, c) {
        var k :| 0 <= k < |p.rows| && c in p.snap[p.rows[k]].subs
                 && item == Item(p.table, p.snap[p.rows[k]].id, p.snap[p.rows[k]].data);
        assert PickedAt(ps, c, item, n - 1, k);
      }
    }
  }

  lemma {:induction false} LenConcat(a: seq<GoodTok>, b: seq<GoodTok>)
    ensures |EncAll(a + b)| == |EncAll(a)| + |EncAll(b)|
  {
    hide Enc;
    if b == [] {
      assert a + b == a;
    } else {
      var n := |b| - 1;
      assert a + b == a + b[..n] + [b[n]];
      Push(a + b[..n], b[n]);
      LenConcat(a, b[..n]);
    }
  }

  lemma OneLen(t: GoodTok)
    ensures |EncAll([t])| == |Enc(t)|
  {
    Push([], t);
    assert [] + [t] == [t];
  }

  lemma {:induction false} ToksSize(p: Pick, n: nat, c: nat)
    requires p.Valid() && n <= |p.rows|
    ensures |EncAll(p.Toks(n, c))| == p.Size(n, c)
  {
    hide Enc;
    if n > 0 {
      ToksSize(p, n - 1, c);
      var r := p.snap[p.rows[n - 1]];
      if c in r.subs {
        Push(p.Toks(n - 1, c), Row(r.id, r.data));
        EncLength(Row(r.id, r.data));
      } else {
        assert p.Toks(n, c) == p.Toks(n - 1, c);
      }
    }
  }

  lemma PlanUnfold(ps: seq<Pick>, n: nat, c: nat)
    requires n <= |ps| && AllPicksValid(ps)
    ensures n == 0 ==> Plan(ps, n, c) == [] && |EncAll([])| == 0 && TotalSize(ps, n, c) == 0 && AllItems(ps, n, c) == []
    ensures n > 0 ==>
              && ps[n - 1].Valid()
              && Plan(ps, n, c) == Plan(ps, n - 1, c) + ps[n - 1].Piece(c, n == |ps|)
              && TotalSize(ps, n, c) == TotalSize(ps, n - 1, c) + ps[n - 1].Size(|ps[n - 1].rows|, c)
              && AllItems(ps, n, c) == AllItems(ps, n - 1, c) + ps[n - 1].Items(|ps[n - 1].rows|, c)
  {
  }

  /** The size that is added up in advance is exactly what is going to be written: the rows, and eight bytes a table. */
  lemma {:induction false} PlanSize(ps: seq<Pick>, n: nat, c: nat)
    requires n <= |ps| && AllPicksValid(ps)
    ensures |EncAll(Plan(ps, n, c))| == TotalSize(ps, n, c) + (4 + 4) * n
  {
    hide EncAll, Pick.Piece, Pick.Size, Pick.Valid, Plan, TotalSize, AllPicksValid;
    PlanUnfold(ps, n, c);
    if n > 0 {
      var p := ps[n - 1];
      PlanSize(ps, n - 1, c);
      PieceSize(p, c, n == |ps|);
      LenConcat(Plan(ps, n - 1, c), p.Piece(c, n == |ps|));
    }
  }

  lemma PieceSize(p: Pick, c: nat, last: bool)
    requires p.Valid()
    ensures |EncAll(p.Piece(c, last))| == p.Size(|p.rows|, c) + 8
  {
    hide EncAll, Enc;
    var head, tail: GoodTok := Table(p.table), if last then Tok.End else Separator;
    ToksSize(p, |p.rows|, c);
    LenConcat([head], p.Toks(|p.rows|, c));
    LenConcat([head] + p.Toks(|p.rows|, c), [tail]);
    OneLen(head);
    OneLen(tail);
    EncLength(head);
    EncLength(tail);
  }

  // ---- The plan decodes to the picked rows ----

  lemma {:induction false} ToksRead(p: Pick, n: nat, c: nat, toks: seq<GoodTok>)
    requires p.Valid() && n <= |p.rows| && Sound(toks) && After(toks) == In(p.table)
    ensures Sound(toks + p.Toks(n, c)) && After(toks + p.Toks(n, c)) == In(p.table)
    ensures PushFormat.Items(toks + p.Toks(n, c)) == PushFormat.Items(toks) + p.Items(n, c)
  {
    hide After, PushFormat.Items, Sound;
    if n == 0 {
      assert toks + p.Toks(n, c) == toks;
    } else {
      ToksRead(p, n - 1, c, toks);
      var r := p.snap[p.rows[n - 1]];
      if c in r.subs {
        RowRead(toks + p.Toks(n - 1, c), p.table, r.id, r.data);
        assert toks + p.Toks(n, c) == toks + p.Toks(n - 1, c) + [Row(r.id, r.data)];
        assert PushFormat.Items(toks) + p.Items(n, c)
            == PushFormat.Items(toks) + p.Items(n - 1, c) + [Item(p.table, r.id, r.data)];
      } else {
        assert p.Toks(n, c) == p.Toks(n - 1, c);
      }
    }
  }

  lemma RowRead(toks: seq<GoodTok>, table: int, id: int, data: seq<byte>)
    requires Sound(toks) && After(toks) == In(table) && TokOk(Row(id, data))
    ensures Sound(toks + [Row(id, data)]) && After(toks + [Row(id, data)]) == In(table)
    ensures PushFormat.Items(toks + [Row(id, data)]) == PushFormat.Items(toks) + [Item(table, id, data)]
  {
    Push(toks, Row(id, data));
    PushSound(toks, Row(id, data));
  }

  lemma TableRead(toks: seq<GoodTok>, table: int)
    requires Sound(toks) && (After(toks) == Start || After(toks) == Fresh) && TokOk(Table(table))
    ensures Sound(toks + [Table(table)]) && After(toks + [Table(table)]) == In(table)
    ensures PushFormat.Items(toks + [Table(table)]) == PushFormat.Items(toks)
  {
    Push(toks, Table(table));
    PushSound(toks, Table(table));
  }

  lemma LastRead(toks: seq<GoodTok>, table: int, last: bool)
    requires Sound(toks) && After(toks) == In(table)
    ensures var all: seq<GoodTok> := toks + [if last then Tok.End else Separator];
      Sound(all) && After(all) == (if last then Closed else Fresh) && PushFormat.Items(all) == PushFormat.Items(toks)
  {
    Push(toks, if last then Tok.End else Separator);
    PushSound(toks, if last then Tok.End else Separator);
  }

  lemma PieceRead(p: Pick, c: nat, last: bool, toks: seq<GoodTok>)
    requires p.Valid() && Sound(toks) && (After(toks) == Start || After(toks) == Fresh)
    ensures var all := toks + p.Piece(c, last);
      && Sound(all) && After(all) == (if last then Closed else Fresh)
      && PushFormat.Items(all) == PushFormat.Items(toks) + p.Items(|p.rows|, c)
  {
    hide After, PushFormat.Items, Sound, Pick.Toks, Pick.Items;
    var head, tail: GoodTok := Table(p.table), if last then Tok.End else Separator;
    TableRead(toks, p.table);
    ToksRead(p, |p.rows|, c, toks + [head]);
    var before := toks + [head] + p.Toks(|p.rows|, c);
    LastRead(before, p.table, last);
    assert before + [tail] == toks + p.Piece(c, last);
  }

  lemma NothingRead()
    ensures Sound([]) && PushFormat.Items([]) == [] && After([]) == Start
  {
  }

  lemma {:induction false} PlanRead(ps: seq<Pick>, n: nat, c: nat)
    requires n <= |ps| && AllPicksValid(ps)
    ensures Sound(Plan(ps, n, c)) && PushFormat.Items(Plan(ps, n, c)) == AllItems(ps, n, c)
    ensures After(Plan(ps, n, c)) == if n == 0 then Start else if n == |ps| then Closed else Fresh
  {
    hide After, PushFormat.Items, Sound, Pick.Piece, Pick.Items, Pick.Valid, Plan, AllItems, AllPicksValid, TotalSize;
    PlanUnfold(ps, n, c);
    NothingRead();
    if n > 0 {
      PlanRead(ps, n - 1, c);
      PieceRead(ps[n - 1], c, n == |ps|, Plan(ps, n - 1, c));
    }
  }

  /** A buffer filled as planned decodes to the picked rows of the client. */
  lemma PlanDecodes(ps: seq<Pick>, c: nat)
    requires ps != [] && AllPicksValid(ps)
    ensures Legible(EncAll(Plan(ps, |ps|, c)))
    ensures Decode(EncAll(Plan(ps, |ps|, c))) == AllItems(ps, |ps|, c)
  {
    PlanRead(ps, |ps|, c);
    var toks := Plan(ps, |ps|, c);
    assert EncAll(toks) + [] == EncAll(toks);
    DecodeEncoded(toks, []);
  }

  // ---- Picking rows and adding up sizes ----

  predicate Distinct(s: seq<nat>) {
    forall j, k :: 0 <= j < k < |s| ==> s[j] != s[k]
  }

  lemma {:induction false} CountOf(s: seq<nat>, x: nat)
    requires Distinct(s)
    ensures multiset(s)[x] <= 1
  {
    if s != [] {
      var n := |s| - 1;
      assert s == s[..n] + [s[n]];
      CountOf(s[..n], x);
      assert x == s[n] ==> x !in s[..n];
    }
  }

  lemma Twice(s: seq<nat>, j: nat, k: nat)
    requires j < k < |s| && s[j] == s[k]
    ensures multiset(s)[s[j]] >= 2
  {
    assert s == s[..k] + [s[k]] + s[k + 1..];
    assert s[..k][j] == s[j];
  }

  /** Sorting or shuffling keeps candidates distinct. */
  lemma SortKeepsDistinct(s: seq<nat>, t: seq<nat>)
    requires Distinct(s) && multiset(t) == multiset(s)
    ensures Distinct(t) && |t| == |s| && forall x :: x in t <==> x in s
  {
    forall j, k | 0 <= j < k < |t| ensures t[j] != t[k] {
      if t[j] == t[k] {
        Twice(t, j, k);
        CountOf(s, t[j]);
        assert false;
      }
    }
    forall x ensures x in t <==> x in s {
      assert x in multiset(t) <==> x in t;
      assert x in multiset(s) <==> x in s;
    }
    assert |multiset(t)| == |t| && |multiset(s)| == |s|;
  }

  method AccumSerializedSizePerClient(subs: CallBackSubs, sizes: array<nat>, serializedSize: nat)
    modifies sizes
    ensures forall c :: 0 <= c < sizes.Length ==>
              sizes[c] == old(sizes[c]) + if c in subs.subscriptions then serializedSize + 4 + 8 else 0
  {
    var client := 0;
    while client < sizes.Length
      invariant 0 <= client <= sizes.Length
      invariant forall c :: 0 <= c < sizes.Length ==>
                  sizes[c] == old(sizes[c]) +
                    if c < client && c in subs.subscriptions then serializedSize + 4 + 8 else 0
    {
      if client in subs.subscriptions {
        sizes[client] := sizes[client] + (serializedSize + 4 + 8);
      }
      client := client + 1;
    }
  }

  ghost predicate Permutes(s: seq<nat>, t: seq<nat>) {
    multiset(t) == multiset(s)
  }

  ghost predicate SortOk(sort: seq<nat> -> seq<nat>) {
    forall s: seq<nat> {:trigger sort(s)} :: Permutes(s, sort(s))
  }

  /** `found` are rows below i that are due, in order; and it is not empty if there are any. */
  ghost predicate Found(snap: seq<RowState>, i: nat, found: seq<nat>)
    requires i <= |snap|
  {
    && (forall j, k :: 0 <= j < k < |found| ==> found[j] < found[k])
    && (forall k :: 0 <= k < |found| ==> found[k] < i && snap[found[k]].Due())
    && (found == [] ==> forall k :: 0 <= k < i ==> !snap[k].Due())
  }

  lemma FoundNext(snap: seq<RowState>, i: nat, found: seq<nat>)
    requires i < |snap| && Found(snap, i, found)
    ensures if snap[i].Due() then Found(snap, i + 1, found + [i]) else Found(snap, i + 1, found)
  {
  }

  /** The dirty rows that have subscribers, in storage order; at most `limit` of them, but at least one. */
  method Candidates(t: ServerTable, limit: nat) returns (candidates: seq<nat>)
    requires t.Valid()
    ensures Distinct(candidates)
    ensures forall k :: 0 <= k < |candidates| ==> candidates[k] < |t.storage| && t.Snapshot()[candidates[k]].Due()
    ensures candidates == [] ==> forall i :: 0 <= i < |t.storage| ==> !t.Snapshot()[i].Due()
    ensures |candidates| <= limit || |candidates| <= 1
  {
    candidates := ScanDue(t, limit);
  }

  method ScanDue(t: ServerTable, limit: nat) returns (candidates: seq<nat>)
    requires t.Valid()
    ensures exists i: nat :: i <= |t.storage| && Found(t.Snapshot(), i, candidates)
              && (candidates == [] ==> i == |t.storage|)
    ensures |candidates| <= limit || |candidates| <= 1
  {
    hide Found;
    candidates := [];
    ghost var snap := t.Snapshot();
    assert Found(snap, 0, []) by { NoneFound(snap); }
    var i := 0;
    while i < |t.storage|
      invariant 0 <= i <= |t.storage| == |snap| && t.Snapshot() == snap && Found(snap, i, candidates)
      invariant |candidates| == 0 || |candidates| < limit
    {
      var row := t.storage[i].1;
      assert snap[i] == row.State(t.storage[i].0);
      FoundNext(snap, i, candidates);
      var none := row.NoClientSubscribed();
      i := i + 1;
      if !none && row.dirty {
        candidates := candidates + [i - 1];
        if |candidates| >= limit {
          assert t.Snapshot() == snap && Found(snap, i, candidates);
          return;
        }
      }
    }
  }

  lemma NoneFound(snap: seq<RowState>)
    ensures Found(snap, 0, [])
  {
  }

  /** Picks rows to send and adds what they take to the size of each subscriber's buffer. */
  method GetPartialTableToSend(t: ServerTable, sizes: array<nat>, threshold: nat, factor: nat,
                               sort: seq<nat> -> seq<nat>) returns (rows: seq<nat>)
    requires t.Valid() && TokOk(Table(t.tableId)) && SortOk(sort)
    modifies sizes
    ensures t.Valid() && t.Snapshot() == old(t.Snapshot()) && Pick(t.tableId, t.Snapshot(), rows).Valid()
    ensures rows == [] <==> forall i :: 0 <= i < |t.storage| ==> !t.Snapshot()[i].Due()
    ensures |rows| <= threshold || |rows| <= 1
    ensures forall c :: 0 <= c < sizes.Length ==>
              sizes[c] == old(sizes[c]) + Pick(t.tableId, t.Snapshot(), rows).Size(|rows|, c)
  {
    ghost var snap := t.Snapshot();
    var candidates := Candidates(t, threshold * factor);
    rows := [];
    EmptyPick(t.tableId, snap);
    if candidates == [] {
      return;
    }
    var sorted := sort(candidates);
    SortKeepsDistinct(candidates, sorted);
    forall k | 0 <= k < |sorted| ensures sorted[k] < |snap| && snap[sorted[k]].Due() {
      assert sorted[k] in candidates;
    }
    rows := TakeSorted(t, sorted, threshold, sizes);
    assert t.Snapshot()[sorted[0]].Due();
  }

  /** The first of the sorted candidates. */
  method TakeSorted(t: ServerTable, sorted: seq<nat>, threshold: nat, sizes: array<nat>) returns (rows: seq<nat>)
    requires t.Valid() && TokOk(Table(t.tableId)) && Distinct(sorted) && sorted != []
    requires forall k :: 0 <= k < |sorted| ==> sorted[k] < |t.storage| && t.Snapshot()[sorted[k]].Due()
    modifies sizes
    ensures rows != [] && rows <= sorted && (|rows| <= threshold || |rows| <= 1)
    ensures t.Valid() && t.Snapshot() == old(t.Snapshot())
    ensures Pick(t.tableId, t.Snapshot(), rows).Valid()
    ensures forall c :: 0 <= c < sizes.Length ==>
              sizes[c] == old(sizes[c]) + Pick(t.tableId, t.Snapshot(), rows).Size(|rows|, c)
  {
    rows := [];
    ghost var snap := t.Snapshot();
    EmptyPick(t.tableId, snap);
    hide ServerTable.Snapshot, ServerTable.Valid, Pick.Valid, Pick.Size, TokOk;
    var k := 0;
    while k < |sorted|
      invariant 0 <= k <= |sorted| && rows == sorted[..k] && (k < threshold || k == 0)
      invariant t.Valid() && t.Snapshot() == snap && |snap| == |t.storage|
      invariant Pick(t.tableId, snap, rows).Valid()
      invariant forall c :: 0 <= c < sizes.Length ==>
                  sizes[c] == old(sizes[c]) + Pick(t.tableId, snap, rows).Size(|rows|, c)
    {
      PickRow(t, sorted[k], sizes, Pick(t.tableId, snap, rows));
      rows := rows + [sorted[k]];
      k := k + 1;
      if |rows| >= threshold {
        return;
      }
    }
  }

  lemma EmptyPick(table: int, snap: seq<RowState>)
    requires TokOk(Table(table)) && forall i :: 0 <= i < |snap| ==> TokOk(Row(snap[i].id, snap[i].data))
    ensures Pick(table, snap, []).Valid() && forall c :: Pick(table, snap, []).Size(0, c) == 0
  {
  }

  method PickRow(t: ServerTable, i: nat, sizes: array<nat>, ghost p: Pick)
    requires t.Valid() && p.Valid() && p.snap == t.Snapshot() && i < |t.storage| && p.snap[i].Due() && i !in p.rows
    modifies sizes
    ensures t.Valid() && t.Snapshot() == old(t.Snapshot()) && p.(rows := p.rows + [i]).Valid()
    ensures forall c :: 0 <= c < sizes.Length ==>
              sizes[c] + p.Size(|p.rows|, c) == old(sizes[c]) + p.(rows := p.rows + [i]).Size(|p.rows| + 1, c)
  {
    var row := t.storage[i].1;
    assert p.snap[i] == row.State(t.storage[i].0);
    SizeNext(p, i);
    hide Pick.Size, Pick.Valid;
    AccumSerializedSizePerClient(row.callbackSubs, sizes, |row.rowData|);
  }

  lemma SizeNext(p: Pick, i: nat)
    requires p.Valid() && i < |p.snap| && p.snap[i].Due() && i !in p.rows
    ensures var q := p.(rows := p.rows + [i]);
      && q.Valid()
      && (forall c: nat ::
            (q.Size(|q.rows|, c) == p.Size(|p.rows|, c) + if c in p.snap[i].subs then |p.snap[i].data| + 4 + 8 else 0))
  {
    var q := p.(rows := p.rows + [i]);
    forall c: nat ensures q.Size(|p.rows|, c) == p.Size(|p.rows|, c) {
      SizePrefix(p, q, |p.rows|, c);
    }
  }

  lemma {:induction false} SizePrefix(p: Pick, q: Pick, n: nat, c: nat)
    requires p.Valid() && q.Valid() && p.snap == q.snap && p.rows <= q.rows && n <= |p.rows|
    ensures q.Size(n, c) == p.Size(n, c)
  {
    if n > 0 {
      SizePrefix(p, q, n - 1, c);
    }
  }

  // ---- Filling the buffers ----

  /** Every subscriber's buffer is to get the row next. */
  ghost predicate Room(toks: seq<seq<GoodTok>>, subs: set<nat>, tok: GoodTok, plan: seq<seq<GoodTok>>) {
    |plan| == |toks| && forall c :: 0 <= c < |toks| && c in subs ==> toks[c] + [tok] <= plan[c]
  }

  method AppendOne(subs: CallBackSubs, buffs: seq<RecordBuff>, c: nat, id: int, data: seq<byte>,
                   ghost plan: seq<seq<GoodTok>>, ghost toks: seq<seq<GoodTok>>)
    requires Planned(buffs, plan) && TokOk(Row(id, data)) && c < |buffs| == |toks|
    requires Room(toks, subs.subscriptions, Row(id, data), plan)
    requires Toks(buffs) == AddRow(toks, subs.subscriptions, 0, c, Row(id, data))
    modifies buffs[c], buffs[c].mem
    ensures Planned(buffs, plan)
    ensures Toks(buffs) == AddRow(toks, subs.subscriptions, 0, c + 1, Row(id, data))
  {
    AddStep(toks, subs.subscriptions, 0, c, Row(id, data));
    if c in subs.subscriptions {
      assert Toks(buffs)[c] == buffs[c].toks == toks[c];
      hide AddRow, Planned;
      AppendNext(buffs, c, id, data, plan);
    }
  }

  /** Every subscriber has a buffer, and in every one of them there is room. */
  method AppendRowToBuffs(subs: CallBackSubs, buffs: seq<RecordBuff>, id: int, data: seq<byte>,
                          ghost plan: seq<seq<GoodTok>>)
    requires Planned(buffs, plan) && TokOk(Row(id, data))
    requires Room(Toks(buffs), subs.subscriptions, Row(id, data), plan)
    modifies buffs, Mems(buffs)
    ensures Planned(buffs, plan)
    ensures Toks(buffs) == AddRow(old(Toks(buffs)), subs.subscriptions, 0, |buffs|, Row(id, data))
  {
    ghost var toks, who := Toks(buffs), subs.subscriptions;
    AddNone(toks, who, 0, Row(id, data));
    hide Planned, AddRow, Room, Toks;
    var client := 0;
    while client < |buffs|
      invariant 0 <= client <= |buffs| == |toks| && subs.subscriptions == who
      invariant Planned(buffs, plan) && Toks(buffs) == AddRow(toks, who, 0, client, Row(id, data))
    {
      AppendOne(subs, buffs, client, id, data, plan, toks);
      client := client + 1;
    }
  }

  /** The rows once those at `rows` were sent. */
  function SentRows(snap: seq<RowState>, rows: seq<nat>): seq<RowState> {
    seq(|snap|, i requires 0 <= i < |snap| => if i in rows then snap[i].(dirty := false) else snap[i])
  }

  /** The rows once the first n picked ones were sent. */
  function SentUpTo(p: Pick, n: nat): seq<RowState>
    requires n <= |p.rows|
  {
    SentRows(p.snap, p.rows[..n])
  }

  /** Exactly the picked rows are clean; nothing else of any row has changed. */
  lemma SentUpToIs(p: Pick, i: nat)
    requires p.Valid() && i < |p.snap|
    ensures |SentUpTo(p, |p.rows|)| == |p.snap|
    ensures var now := SentUpTo(p, |p.rows|)[i];
      && now.id == p.snap[i].id && now.data == p.snap[i].data && now.subs == p.snap[i].subs
      && (now.dirty <==> p.snap[i].dirty && i !in p.rows)
  {
    assert p.rows[..|p.rows|] == p.rows;
  }

  /** How far each client's buffer is in one table. */
  ghost predicate Filled(toks: seq<seq<GoodTok>>, base: seq<seq<GoodTok>>, p: Pick, n: nat) {
    && p.Valid() && n <= |p.rows| && |toks| == |base|
    && forall c {:trigger toks[c]} :: 0 <= c < |toks| ==> toks[c] == base[c] + p.Toks(n, c)
  }

  /** All that this table writes is in the plan. */
  ghost predicate Foreseen(base: seq<seq<GoodTok>>, plan: seq<seq<GoodTok>>, p: Pick) {
    && p.Valid() && |plan| == |base|
    && (forall c {:trigger base[c]} :: 0 <= c < |base| ==> base[c] + p.Toks(|p.rows|, c) <= plan[c])
  }

  lemma {:induction false} ToksGrow(p: Pick, k: nat, n: nat, c: nat)
    requires p.Valid() && k <= n <= |p.rows|
    ensures p.Toks(k, c) <= p.Toks(n, c)
    decreases n
  {
    if k < n {
      ToksGrow(p, k, n - 1, c);
    }
  }

  lemma RowForeseen(toks: seq<seq<GoodTok>>, base: seq<seq<GoodTok>>, plan: seq<seq<GoodTok>>, p: Pick, n: nat)
    requires Foreseen(base, plan, p) && n < |p.rows| && Filled(toks, base, p, n)
    ensures var r := p.snap[p.rows[n]]; Room(toks, r.subs, Row(r.id, r.data), plan)
  {
    var r := p.snap[p.rows[n]];
    forall c | 0 <= c < |toks| && c in r.subs ensures toks[c] + [Row(r.id, r.data)] <= plan[c] {
      ToksGrow(p, n + 1, |p.rows|, c);
      assert toks[c] + [Row(r.id, r.data)] == base[c] + p.Toks(n + 1, c);
      assert base[c] + p.Toks(n + 1, c) <= base[c] + p.Toks(|p.rows|, c);
    }
  }

  lemma RowFilled(toks: seq<seq<GoodTok>>, base: seq<seq<GoodTok>>, p: Pick, n: nat)
    requires p.Valid() && n < |p.rows| && Filled(toks, base, p, n)
    ensures var r := p.snap[p.rows[n]];
      Filled(AddRow(toks, r.subs, 0, |toks|, Row(r.id, r.data)), base, p, n + 1)
  {
    var r := p.snap[p.rows[n]];
    var toks' := AddRow(toks, r.subs, 0, |toks|, Row(r.id, r.data));
    forall c | 0 <= c < |toks'| ensures toks'[c] == base[c] + p.Toks(n + 1, c) {
      if c in r.subs {
        assert base[c] + p.Toks(n, c) + [Row(r.id, r.data)] == base[c] + p.Toks(n + 1, c);
      } else {
        assert p.Toks(n + 1, c) == p.Toks(n, c);
      }
    }
  }

  method CleanAt(t: ServerTable, i: nat, row: ServerRow)
    requires t.Valid() && i < |t.storage| && t.storage[i].1 == row
    modifies row`dirty
    ensures t.Valid() && t.Snapshot() == old(t.Snapshot())[i := old(t.Snapshot())[i].(dirty := false)]
  {
    ghost var before := t.Snapshot();
    row.ResetDirty();
    forall k | 0 <= k < |t.storage| && k != i ensures t.Snapshot()[k] == before[k] {
      assert t.storage[k].1 != row;
    }
  }

  lemma SentRowsNext(p: Pick, n: nat)
    requires p.Valid() && n < |p.rows|
    ensures var i := p.rows[n];
      && |SentUpTo(p, n)| == |p.snap| && SentUpTo(p, n)[i] == p.snap[i]
      && SentUpTo(p, n + 1) == SentUpTo(p, n)[i := p.snap[i].(dirty := false)]
  {
    forall k | 0 <= k < |p.snap| ensures k in p.rows[..n + 1] <==> k in p.rows[..n] || k == p.rows[n] {
    }
  }

  /** A picked row is still dirty, and somebody subscribes to it, so that it is cleaned and serialized. */
  method PreparePicked(t: ServerTable, i: nat, n: nat, ghost p: Pick) returns (id: int, row: ServerRow)
    requires t.Valid() && p.Valid() && n < |p.rows| && p.rows[n] == i && |p.snap| == |t.storage|
    requires t.Snapshot() == SentUpTo(p, n)
    modifies t`tmpRowBuff, t.Rows()`dirty
    ensures t.Valid() && t.Snapshot() == SentUpTo(p, n + 1)
    ensures p.snap[i] == RowState(id, t.tmpRowBuff, row.callbackSubs.subscriptions, true)
  {
    hide SentUpTo;
    SentRowsNext(p, n);
    id, row := t.storage[i].0, t.storage[i].1;
    assert t.storage[i] in t.storage && row in t.Rows() && t.Snapshot()[i] == row.State(id) == p.snap[i];
    var none := row.NoClientSubscribed();
    if none || !row.dirty {
      assert false;
    }
    CleanAt(t, i, row);
    t.tmpRowBuff := row.rowData;
  }

  method SendPicked(subs: CallBackSubs, buffs: seq<RecordBuff>, i: nat, n: nat, id: int, data: seq<byte>,
                    ghost p: Pick, ghost plan: seq<seq<GoodTok>>, ghost base: seq<seq<GoodTok>>)
    requires p.Valid() && n < |p.rows| && p.rows[n] == i
    requires p.snap[i] == RowState(id, data, subs.subscriptions, true)
    requires Planned(buffs, plan) && Foreseen(base, plan, p) && Filled(Toks(buffs), base, p, n)
    modifies buffs, Mems(buffs)
    ensures Planned(buffs, plan) && Filled(Toks(buffs), base, p, n + 1)
  {
    RowForeseen(Toks(buffs), base, plan, p, n);
    RowFilled(Toks(buffs), base, p, n);
    hide Planned, Foreseen, Filled, AddRow, Toks, Room;
    AppendRowToBuffs(subs, buffs, id, data, plan);
  }

  method AppendPicked(t: ServerTable, buffs: seq<RecordBuff>, i: nat, n: nat, ghost p: Pick,
                      ghost plan: seq<seq<GoodTok>>, ghost base: seq<seq<GoodTok>>)
    requires t.Valid() && p.Valid() && n < |p.rows| && p.rows[n] == i && |p.snap| == |t.storage|
    requires t.Snapshot() == SentUpTo(p, n)
    requires Planned(buffs, plan) && Foreseen(base, plan, p) && Filled(Toks(buffs), base, p, n)
    modifies t`tmpRowBuff, t.Rows()`dirty, buffs, Mems(buffs)
    ensures t.Valid() && t.Snapshot() == SentUpTo(p, n + 1)
    ensures Planned(buffs, plan) && Filled(Toks(buffs), base, p, n + 1)
  {
    hide Foreseen, Filled, SentUpTo, Pick.Valid, Planned, Toks;
    var id, row := PreparePicked(t, i, n, p);
    SendPicked(row.callbackSubs, buffs, i, n, id, t.tmpRowBuff, p, plan, base);
  }

  lemma FillStart(base: seq<seq<GoodTok>>, plan: seq<seq<GoodTok>>, p: Pick)
    requires Foreseen(base, plan, p)
    ensures Filled(base, base, p, 0) && SentUpTo(p, 0) == p.snap
  {
  }

  method AppendRowsToBuffsPartial(t: ServerTable, buffs: seq<RecordBuff>, rows: seq<nat>, ghost p: Pick,
                                  ghost plan: seq<seq<GoodTok>>, ghost base: seq<seq<GoodTok>>)
    requires t.Valid() && p.Valid() && p.rows == rows && t.Snapshot() == p.snap
    requires Planned(buffs, plan) && Foreseen(base, plan, p) && Toks(buffs) == base
    modifies t`tmpRowBuff, t.Rows()`dirty, buffs, Mems(buffs)
    ensures t.Valid() && t.Snapshot() == SentUpTo(p, |rows|)
    ensures Planned(buffs, plan) && Filled(Toks(buffs), base, p, |rows|)
  {
    hide Planned, Foreseen, SentUpTo, ServerTable.Valid, ServerTable.Snapshot, Toks, Filled, Pick.Valid;
    FillStart(base, plan, p);
    var n := 0;
    while n < |rows|
      invariant 0 <= n <= |rows| && |p.snap| == |t.storage|
      invariant t.Valid() && t.Snapshot() == SentUpTo(p, n)
      invariant Planned(buffs, plan) && Filled(Toks(buffs), base, p, n)
    {
      AppendPicked(t, buffs, rows[n], n, p, plan, base);
      n := n + 1;
    }
  }

  // ---- Who gets what ----

  /** What is written for client c by the first n tables: nothing at all, if it gets no row of any table. */
  function Part(ps: seq<Pick>, n: nat, c: nat): seq<GoodTok>
    requires n <= |ps| && AllPicksValid(ps)
  {
    if TotalSize(ps, |ps|, c) == 0 then [] else Plan(ps, n, c)
  }

  function Parts(ps: seq<Pick>, n: nat, clients: nat): (s: seq<seq<GoodTok>>)
    requires n <= |ps| && AllPicksValid(ps)
    ensures |s| == clients && forall c {:trigger s[c]} :: 0 <= c < clients ==> s[c] == Part(ps, n, c)
  {
    seq(clients, c requires 0 <= c < clients => Part(ps, n, c))
  }

  lemma {:induction false} PlanGrow(ps: seq<Pick>, k: nat, n: nat, c: nat)
    requires k <= n <= |ps| && AllPicksValid(ps)
    ensures Plan(ps, k, c) <= Plan(ps, n, c)
    decreases n
  {
    if k < n {
      PlanGrow(ps, k, n - 1, c);
    }
  }

  lemma {:induction false} TotalGrow(ps: seq<Pick>, k: nat, n: nat, c: nat)
    requires k < n <= |ps| && AllPicksValid(ps)
    ensures ps[k].Size(|ps[k].rows|, c) <= TotalSize(ps, n, c)
    decreases n
  {
    if k < n - 1 {
      TotalGrow(ps, k, n - 1, c);
    }
  }

  lemma {:induction false} NoSizeNoToks(p: Pick, n: nat, c: nat)
    requires p.Valid() && n <= |p.rows| && p.Size(n, c) == 0
    ensures p.Toks(n, c) == []
  {
    if n > 0 {
      NoSizeNoToks(p, n - 1, c);
    }
  }

  /** The tokens of one table follow those of the tables before it, as planned. */
  lemma PartNext(ps: seq<Pick>, n: nat, c: nat)
    requires n < |ps| && AllPicksValid(ps)
    ensures var p := ps[n];
      var rows := p.Toks(|p.rows|, c);
      if TotalSize(ps, |ps|, c) == 0 then rows == [] && Part(ps, n, c) == [] && Part(ps, |ps|, c) == []
      else
        && Part(ps, n + 1, c)
           == Part(ps, n, c) + [Table(p.table)] + rows + [if n + 1 == |ps| then Tok.End else Separator]
        && Part(ps, n + 1, c) <= Part(ps, |ps|, c)
  {
    var p := ps[n];
    if TotalSize(ps, |ps|, c) == 0 {
      TotalGrow(ps, n, |ps|, c);
      NoSizeNoToks(p, |p.rows|, c);
    } else {
      PlanGrow(ps, n + 1, |ps|, c);
      hide Pick.Toks, Pick.Valid;
      assert Plan(ps, n, c) + p.Piece(c, n + 1 == |ps|)
          == Plan(ps, n, c) + [Table(p.table)] + p.Toks(|p.rows|, c) + [if n + 1 == |ps| then Tok.End else Separator];
    }
  }

  /** One more token for every client that gets anything. */
  function AddActive(toks: seq<seq<GoodTok>>, plan: seq<seq<GoodTok>>, upto: nat, tok: GoodTok): (s: seq<seq<GoodTok>>)
    requires |plan| == |toks|
    ensures |s| == |toks|
    ensures forall c {:trigger s[c]} :: 0 <= c < |toks| ==>
              s[c] == if c < upto && plan[c] != [] then toks[c] + [tok] else toks[c]
  {
    seq(|toks|, c requires 0 <= c < |toks| => if c < upto && plan[c] != [] then toks[c] + [tok] else toks[c])
  }

  ghost predicate RoomForAll(toks: seq<seq<GoodTok>>, plan: seq<seq<GoodTok>>, tok: GoodTok) {
    |plan| == |toks| && forall c {:trigger toks[c]} :: 0 <= c < |toks| && plan[c] != [] ==> toks[c] + [tok] <= plan[c]
  }

  lemma HasBuffer(buff: RecordBuff, plan: seq<GoodTok>)
    requires PlannedAt(buff, plan)
    ensures buff.mem.Length > 0 <==> plan != []
  {
    if plan != [] {
      EncLength(plan[|plan| - 1]);
    }
  }

  method PutOne(buffs: seq<RecordBuff>, c: nat, ghost tok: GoodTok, x: int, ghost plan: seq<seq<GoodTok>>,
                ghost toks: seq<seq<GoodTok>>)
    requires Planned(buffs, plan) && c < |buffs| == |toks| && IsInt32(x) && Enc(tok) == Enc32(x)
    requires RoomForAll(toks, plan, tok) && Toks(buffs) == AddActive(toks, plan, c, tok)
    modifies buffs[c], buffs[c].mem
    ensures Planned(buffs, plan) && Toks(buffs) == AddActive(toks, plan, c + 1, tok)
  {
    assert Toks(buffs)[c] == buffs[c].toks == toks[c];
    HasBuffer(buffs[c], plan[c]);
    if buffs[c].mem.Length > 0 {
      hide Planned, Enc, Enc32;
      PutNext(buffs, c, tok, x, plan);
    }
  }

  /** Writes an id, a separator or the end into every buffer there is; it always fits. */
  method PutAll(buffs: seq<RecordBuff>, ghost tok: GoodTok, x: int, ghost plan: seq<seq<GoodTok>>)
    requires Planned(buffs, plan) && IsInt32(x) && Enc(tok) == Enc32(x) && RoomForAll(Toks(buffs), plan, tok)
    modifies buffs, Mems(buffs)
    ensures Planned(buffs, plan)
    ensures Toks(buffs) == AddActive(old(Toks(buffs)), plan, |buffs|, tok)
  {
    hide Planned, Enc, Enc32;
    ghost var toks := Toks(buffs);
    assert |plan| == |toks|;
    hide RoomForAll, Toks;
    assert AddActive(toks, plan, 0, tok) == toks;
    var c := 0;
    while c < |buffs|
      invariant 0 <= c <= |buffs| == |toks| == |plan|
      invariant Planned(buffs, plan) && Toks(buffs) == AddActive(toks, plan, c, tok)
    {
      PutOne(buffs, c, tok, x, plan, toks);
      c := c + 1;
    }
  }

  // ---- Planning one table ----

  lemma ClientPlanned(ps: seq<Pick>, n: nat, c: nat)
    requires n < |ps| && AllPicksValid(ps)
    ensures var p, plan, base := ps[n], Part(ps, |ps|, c), Part(ps, n, c);
      var tail: GoodTok := if n + 1 == |ps| then Tok.End else Separator;
      var begun := if plan != [] then base + [Table(p.table)] else base;
      var rows := p.Toks(|p.rows|, c);
      && (plan != [] ==> begun <= plan && begun + rows + [tail] <= plan)
      && begun + rows <= plan
      && Part(ps, n + 1, c) == begun + rows + if plan != [] then [tail] else []
  {
    PartNext(ps, n, c);
    hide Plan, Pick.Toks, Pick.Valid, AllPicksValid;
    if TotalSize(ps, |ps|, c) != 0 {
      assert Part(ps, n + 1, c) <= Part(ps, |ps|, c);
    }
  }

  ghost function Headed(ps: seq<Pick>, n: nat, clients: nat): (s: seq<seq<GoodTok>>)
    requires n < |ps| && AllPicksValid(ps)
    ensures |s| == clients
  {
    AddActive(Parts(ps, n, clients), Parts(ps, |ps|, clients), clients, Table(ps[n].table))
  }

  /** The three steps of one table stay within the plan, and end where the next table begins. */
  lemma TablePlanned(ps: seq<Pick>, n: nat, clients: nat)
    requires n < |ps| && AllPicksValid(ps)
    ensures RoomForAll(Parts(ps, n, clients), Parts(ps, |ps|, clients), Table(ps[n].table))
    ensures Foreseen(Headed(ps, n, clients), Parts(ps, |ps|, clients), ps[n])
  {
    hide Part, Pick.Toks;
    forall c: nat | c < clients
      ensures var plan := Part(ps, |ps|, c);
        && (plan != [] ==> Part(ps, n, c) + [Table(ps[n].table)] <= plan)
        && Headed(ps, n, clients)[c] + ps[n].Toks(|ps[n].rows|, c) <= plan
    {
      ClientPlanned(ps, n, c);
    }
  }

  lemma TableEnded(ps: seq<Pick>, n: nat, clients: nat, toks: seq<seq<GoodTok>>)
    requires n < |ps| && AllPicksValid(ps) && Filled(toks, Headed(ps, n, clients), ps[n], |ps[n].rows|)
    ensures var tail: GoodTok := if n + 1 == |ps| then Tok.End else Separator;
      && RoomForAll(toks, Parts(ps, |ps|, clients), tail)
      && AddActive(toks, Parts(ps, |ps|, clients), clients, tail) == Parts(ps, n + 1, clients)
  {
    hide Part, Pick.Toks;
    var tail: GoodTok := if n + 1 == |ps| then Tok.End else Separator;
    forall c: nat | c < clients
      ensures var plan := Part(ps, |ps|, c);
        && (plan != [] ==> toks[c] + [tail] <= plan)
        && Part(ps, n + 1, c) == if plan != [] then toks[c] + [tail] else toks[c]
    {
      ClientPlanned(ps, n, c);
    }
  }

  /** One table: its id, its picked rows, and a separator or the end. No write can fail. */
  method FillTable(t: ServerTable, buffs: seq<RecordBuff>, rows: seq<nat>, last: bool, ghost ps: seq<Pick>,
                   ghost n: nat)
    requires t.Valid() && AllPicksValid(ps) && n < |ps| && last == (n + 1 == |ps|)
    requires ps[n] == Pick(t.tableId, t.Snapshot(), rows)
    requires Planned(buffs, Parts(ps, |ps|, |buffs|)) && Toks(buffs) == Parts(ps, n, |buffs|)
    modifies t`tmpRowBuff, t.Rows()`dirty, buffs, Mems(buffs)
    ensures t.Valid() && t.Snapshot() == SentUpTo(ps[n], |rows|)
    ensures Planned(buffs, Parts(ps, |ps|, |buffs|)) && Toks(buffs) == Parts(ps, n + 1, |buffs|)
  {
    hide Planned, Toks, Foreseen, Filled, RoomForAll, ServerTable.Valid, ServerTable.Snapshot, SentUpTo, Enc, Enc32,
         Headed, AddActive, Parts, Pick.Valid;
    ghost var plan := Parts(ps, |ps|, |buffs|);
    TablePlanned(ps, n, |buffs|);
    PickOk(ps[n]);
    PutHead(t, buffs, ps, n);
    AppendRowsToBuffsPartial(t, buffs, rows, ps[n], plan, Headed(ps, n, |buffs|));
    TableEnded(ps, n, |buffs|, Toks(buffs));
    PutTail(t, buffs, last, ps, n);
  }

  lemma PickOk(p: Pick)
    requires p.Valid()
    ensures TokOk(Table(p.table)) && Enc(Table(p.table)) == Enc32(p.table)
  {
  }

  method PutHead(t: ServerTable, buffs: seq<RecordBuff>, ghost ps: seq<Pick>, ghost n: nat)
    requires t.Valid() && AllPicksValid(ps) && n < |ps| && ps[n].table == t.tableId && TokOk(Table(t.tableId))
    requires Planned(buffs, Parts(ps, |ps|, |buffs|)) && Toks(buffs) == Parts(ps, n, |buffs|)
    requires RoomForAll(Parts(ps, n, |buffs|), Parts(ps, |ps|, |buffs|), Table(t.tableId))
    modifies buffs, Mems(buffs)
    ensures t.Valid() && t.Snapshot() == old(t.Snapshot())
    ensures Planned(buffs, Parts(ps, |ps|, |buffs|)) && Toks(buffs) == Headed(ps, n, |buffs|)
  {
    hide Planned, Toks, RoomForAll, AddActive, Parts, Pick.Valid, Enc32;
    PutAll(buffs, Table(t.tableId), t.tableId, Parts(ps, |ps|, |buffs|));
  }

  method PutTail(t: ServerTable, buffs: seq<RecordBuff>, last: bool, ghost ps: seq<Pick>, ghost n: nat)
    requires t.Valid() && AllPicksValid(ps) && n < |ps| && last == (n + 1 == |ps|)
    requires Planned(buffs, Parts(ps, |ps|, |buffs|))
    requires var tail: GoodTok := if last then Tok.End else Separator;
      && RoomForAll(Toks(buffs), Parts(ps, |ps|, |buffs|), tail)
      && AddActive(Toks(buffs), Parts(ps, |ps|, |buffs|), |buffs|, tail) == Parts(ps, n + 1, |buffs|)
    modifies buffs, Mems(buffs)
    ensures t.Valid() && t.Snapshot() == old(t.Snapshot())
    ensures Planned(buffs, Parts(ps, |ps|, |buffs|)) && Toks(buffs) == Parts(ps, n + 1, |buffs|)
  {
    hide Planned, Toks, RoomForAll, AddActive, Parts, Pick.Valid, Enc32;
    if last {
      PutAll(buffs, Tok.End, END, Parts(ps, |ps|, |buffs|));
    } else {
      PutAll(buffs, Separator, SEPARATOR, Parts(ps, |ps|, |buffs|));
    }
  }

  lemma {:induction false} TotalOfPrefix(ps: seq<Pick>, p: Pick, n: nat, c: nat)
    requires n <= |ps| && AllPicksValid(ps) && p.Valid()
    ensures AllPicksValid(ps + [p]) && TotalSize(ps + [p], n, c) == TotalSize(ps, n, c)
  {
    if n > 0 {
      TotalOfPrefix(ps, p, n - 1, c);
    }
  }

  lemma TotalPush(ps: seq<Pick>, p: Pick, c: nat)
    requires AllPicksValid(ps) && p.Valid()
    ensures AllPicksValid(ps + [p])
    ensures TotalSize(ps + [p], |ps| + 1, c) == TotalSize(ps, |ps|, c) + p.Size(|p.rows|, c)
  {
    TotalOfPrefix(ps, p, |ps|, c);
  }

  ghost predicate Totals(sizes: seq<nat>, ps: seq<Pick>) {
    AllPicksValid(ps) && forall c {:trigger sizes[c]} :: 0 <= c < |sizes| ==> sizes[c] == TotalSize(ps, |ps|, c)
  }

  lemma TotalsPush(was: seq<nat>, sizes: seq<nat>, ps: seq<Pick>, p: Pick)
    requires Totals(was, ps) && p.Valid() && |sizes| == |was|
    requires forall c :: 0 <= c < |sizes| ==> sizes[c] == was[c] + p.Size(|p.rows|, c)
    ensures Totals(sizes, ps + [p])
  {
    TotalOfPrefix(ps, p, 0, 0);
    forall c | 0 <= c < |sizes| ensures sizes[c] == TotalSize(ps + [p], |ps| + 1, c) {
      TotalPush(ps, p, c);
    }
  }

  /** What one partial push means for client c: no message, if none of its rows was picked; otherwise one message, of
      exactly the size that was added up, which brings the picked rows and does not carry the clock. */
  ghost predicate Got(was: seq<Msg>, now: seq<Msg>, ps: seq<Pick>, c: nat)
    requires AllPicksValid(ps)
  {
    if TotalSize(ps, |ps|, c) == 0 then now == was
    else
      && |now| == |was| + 1 && now[..|was|] == was && !now[|was|].isClock
      && |now[|was|].data| == TotalSize(ps, |ps|, c) + (4 + 4) * |ps|
      && Legible(now[|was|].data) && Decode(now[|was|].data) == AllItems(ps, |ps|, c)
  }

  lemma FullBuffer(buff: RecordBuff, ps: seq<Pick>, c: nat)
    requires AllPicksValid(ps) && PlannedAt(buff, Part(ps, |ps|, c)) && buff.toks == Part(ps, |ps|, c)
    ensures buff.offset == buff.mem.Length
    ensures buff.mem.Length > 0 <==> TotalSize(ps, |ps|, c) > 0
    ensures buff.mem.Length > 0 ==>
              && |buff.mem[..]| == TotalSize(ps, |ps|, c) + (4 + 4) * |ps|
              && Legible(buff.mem[..]) && Decode(buff.mem[..]) == AllItems(ps, |ps|, c)
  {
    DoneIsFull(buff, Part(ps, |ps|, c));
    hide Legible, Decode;
    if TotalSize(ps, |ps|, c) > 0 {
      PlanSize(ps, |ps|, c);
      PlanDecodes(ps, c);
    }
  }

  class PartialServer {
    const tables: seq<ServerTable>
    var sent: seq<seq<Msg>>

    ghost function RowsOfTables(): set<ServerRow>
      reads tables`storage
    {
      set t, r | t in tables && r in t.Rows() :: r
    }

    ghost function SubsOfTables(): set<CallBackSubs>
      reads tables`storage
    {
      set t, r | t in tables && r in t.Subs() :: r
    }

    /** Tables are separate, and their rows are in these states. */
    ghost predicate TablesIn(states: seq<seq<RowState>>)
      reads tables, RowsOfTables(), SubsOfTables()
    {
      && |states| == |tables|
      && (forall i, j :: 0 <= i < j < |tables| ==> tables[i] != tables[j] && tables[i].Rows() !! tables[j].Rows())
      && (forall i {:trigger tables[i]} :: 0 <= i < |tables| ==> TableIn(tables[i], states[i]))
    }

    ghost predicate TableIn(t: ServerTable, state: seq<RowState>)
      reads t, t.Rows(), t.Subs()
    {
      t.Valid() && TokOk(Table(t.tableId)) && t.Snapshot() == state
    }

    /** `ps` says what was picked of each table. */
    ghost predicate Picked(ps: seq<Pick>, states: seq<seq<RowState>>, rowsToSend: seq<seq<nat>>, threshold: nat) {
      && AllPicksValid(ps) && |ps| == |rowsToSend| <= |states| == |tables|
      && forall i {:trigger ps[i]} :: 0 <= i < |ps| ==>
           && ps[i] == Pick(tables[i].tableId, states[i], rowsToSend[i])
           && (rowsToSend[i] == [] <==> forall k :: 0 <= k < |states[i]| ==> !states[i][k].Due())
           && (|rowsToSend[i]| <= threshold || |rowsToSend[i]| <= 1)
    }

    method PickRows(numClients: nat, threshold: nat, factor: nat, sort: seq<nat> -> seq<nat>,
                    ghost states: seq<seq<RowState>>)
      returns (rowsToSend: seq<seq<nat>>, sizes: array<nat>, ghost ps: seq<Pick>)
      requires TablesIn(states) && SortOk(sort)
      ensures TablesIn(states) && fresh(sizes) && sizes.Length == numClients
      ensures Picked(ps, states, rowsToSend, threshold) && |ps| == |tables| && Totals(sizes[..], ps)
    {
      sizes := new nat[numClients](_ => 0);
      assert TablesIn(states);
      hide SortOk, TableIn, Totals;
      rowsToSend, ps := [], [];
      NoTotals(sizes[..]);
      assert Picked(ps, states, rowsToSend, threshold);
      while |rowsToSend| < |tables|
        invariant |rowsToSend| <= |tables| && TablesIn(states)
        invariant Picked(ps, states, rowsToSend, threshold) && Totals(sizes[..], ps)
      {
        var rows := PickTable(tables[|rowsToSend|], numClients, sizes, threshold, factor, sort, states, ps);
        PickedPush(ps, states, rowsToSend, threshold, rows);
        ps := ps + [Pick(tables[|rowsToSend|].tableId, states[|rowsToSend|], rows)];
        rowsToSend := rowsToSend + [rows];
      }
    }

    lemma PickedPush(ps: seq<Pick>, states: seq<seq<RowState>>, rowsToSend: seq<seq<nat>>, threshold: nat,
                     rows: seq<nat>)
      requires Picked(ps, states, rowsToSend, threshold) && |ps| < |tables|
      requires Pick(tables[|ps|].tableId, states[|ps|], rows).Valid()
      requires rows == [] <==> forall k :: 0 <= k < |states[|ps|]| ==> !states[|ps|][k].Due()
      requires |rows| <= threshold || |rows| <= 1
      ensures Picked(ps + [Pick(tables[|ps|].tableId, states[|ps|], rows)], states, rowsToSend + [rows], threshold)
    {
      hide Pick.Valid, RowState.Due;
      var ps', rows' := ps + [Pick(tables[|ps|].tableId, states[|ps|], rows)], rowsToSend + [rows];
      forall i | 0 <= i < |ps'|
        ensures ps'[i].Valid() && ps'[i] == Pick(tables[i].tableId, states[i], rows'[i])
        ensures rows'[i] == [] <==> forall k :: 0 <= k < |states[i]| ==> !states[i][k].Due()
        ensures |rows'[i]| <= threshold || |rows'[i]| <= 1
      {
        assert i < |ps| ==> ps'[i] == ps[i] && rows'[i] == rowsToSend[i];
      }
    }

    lemma NoTotals(sizes: seq<nat>)
      requires forall c :: 0 <= c < |sizes| ==> sizes[c] == 0
      ensures Totals(sizes, [])
    {
    }

    method PickTable(t: ServerTable, numClients: nat, sizes: array<nat>, threshold: nat, factor: nat,
                     sort: seq<nat> -> seq<nat>, ghost states: seq<seq<RowState>>, ghost ps: seq<Pick>)
      returns (rows: seq<nat>)
      requires |ps| < |tables| == |states| && t == tables[|ps|] && TablesIn(states) && SortOk(sort)
      requires Totals(sizes[..], ps)
      modifies sizes
      ensures TablesIn(states) && Pick(t.tableId, states[|ps|], rows).Valid()
      ensures Totals(sizes[..], ps + [Pick(t.tableId, states[|ps|], rows)])
      ensures rows == [] <==> forall k :: 0 <= k < |states[|ps|]| ==> !states[|ps|][k].Due()
      ensures |rows| <= threshold || |rows| <= 1
    {
      hide SortOk, Totals, Pick.Valid, Pick.Size;
      assert TableIn(t, states[|ps|]);
      ghost var was := sizes[..];
      rows := GetPartialTableToSend(t, sizes, threshold, factor, sort);
      TotalsPush(was, sizes[..], ps, Pick(t.tableId, states[|ps|], rows));
    }

    /** Two more int32_t a table for every client that gets anything. */
    method AddEnds(sizes: array<nat>, numTables: nat, ghost states: seq<seq<RowState>>)
      requires TablesIn(states)
      modifies sizes
      ensures TablesIn(states)
      ensures forall c :: 0 <= c < sizes.Length ==>
                sizes[c] == if old(sizes[c]) > 0 then old(sizes[c]) + (4 + 4) * numTables else 0
    {
      var c := 0;
      while c < sizes.Length
        invariant 0 <= c <= sizes.Length
        invariant forall d :: 0 <= d < sizes.Length ==>
                    sizes[d] == old(sizes[d]) + if d < c && old(sizes[d]) > 0 then (4 + 4) * numTables else 0
      {
        if sizes[c] > 0 {
          sizes[c] := sizes[c] + (4 + 4) * numTables;
        }
        c := c + 1;
      }
    }

    /** Buffers of exactly the sizes that were added up. */
    method CreateBuffs(sizes: array<nat>, ghost states: seq<seq<RowState>>) returns (buffs: seq<RecordBuff>)
      requires TablesIn(states)
      ensures TablesIn(states) && |buffs| == sizes.Length && Apart(buffs) && fresh(buffs) && fresh(Mems(buffs))
      ensures forall c :: 0 <= c < |buffs| ==>
                buffs[c].Valid() && buffs[c].toks == [] && buffs[c].mem.Length == sizes[c]
    {
      buffs := NewBuffs(sizes);
    }

    /** Every client that has a buffer is sent it, whole. */
    method SendAll(buffs: seq<RecordBuff>, ghost ps: seq<Pick>)
      requires AllPicksValid(ps) && |sent| == |buffs|
      requires Planned(buffs, Parts(ps, |ps|, |buffs|)) && Toks(buffs) == Parts(ps, |ps|, |buffs|)
      modifies this`sent
      ensures |sent| == |buffs|
      ensures forall c :: 0 <= c < |buffs| ==> Got(old(sent)[c], sent[c], ps, c)
    {
      hide Legible, Decode, AllItems;
      ghost var was := sent;
      var c := 0;
      while c < |buffs|
        invariant 0 <= c <= |buffs| == |sent|
        invariant forall d :: 0 <= d < c ==> Got(was[d], sent[d], ps, d)
        invariant forall d :: c <= d < |buffs| ==> sent[d] == was[d]
      {
        assert Toks(buffs)[c] == buffs[c].toks;
        assert PlannedAt(buffs[c], Parts(ps, |ps|, |buffs|)[c]);
        FullBuffer(buffs[c], ps, c);
        if buffs[c].mem.Length > 0 {
          sent := sent[c := sent[c] + [Msg(buffs[c].mem[..], false)]];
        }
        c := c + 1;
      }
    }

    /** The rows once the picked ones of the first n tables were sent. */
    function SentStates(ps: seq<Pick>, states: seq<seq<RowState>>, n: nat): (s: seq<seq<RowState>>)
      requires n <= |ps| == |states|
      ensures |s| == |states|
      ensures forall i {:trigger s[i]} :: 0 <= i < |s| ==>
                s[i] == if i < n then SentUpTo(ps[i], |ps[i].rows|) else states[i]
    {
      seq(|states|, i requires 0 <= i < |states| => if i < n then SentUpTo(ps[i], |ps[i].rows|) else states[i])
    }

    method FillOne(n: nat, t: ServerTable, buffs: seq<RecordBuff>, rows: seq<nat>, last: bool, ghost ps: seq<Pick>,
                   ghost states: seq<seq<RowState>>)
      requires n < |tables| == |ps| == |states| && t == tables[n] && last == (n + 1 == |tables|)
      requires TablesIn(states) && AllPicksValid(ps) && ps[n] == Pick(t.tableId, states[n], rows)
      requires Planned(buffs, Parts(ps, |ps|, |buffs|)) && Toks(buffs) == Parts(ps, n, |buffs|)
      modifies t`tmpRowBuff, t.Rows()`dirty, buffs, Mems(buffs)
      ensures TablesIn(states[n := SentUpTo(ps[n], |rows|)])
      ensures Planned(buffs, Parts(ps, |ps|, |buffs|)) && Toks(buffs) == Parts(ps, n + 1, |buffs|)
    {
      hide Planned, Toks, Parts, Pick.Valid, AllPicksValid, SentUpTo, TokOk;
      assert TableIn(t, states[n]);
      FillTableIn(n, t, buffs, rows, last, ps, states[n]);
      forall i | 0 <= i < |tables| && i != n ensures TableIn(tables[i], states[i]) {
        assert tables[i] != t && tables[i].Rows() !! t.Rows();
      }
    }

    method FillTableIn(n: nat, t: ServerTable, buffs: seq<RecordBuff>, rows: seq<nat>, last: bool, ghost ps: seq<Pick>,
                       ghost state: seq<RowState>)
      requires TableIn(t, state) && AllPicksValid(ps) && n < |ps| && last == (n + 1 == |ps|)
      requires ps[n] == Pick(t.tableId, state, rows)
      requires Planned(buffs, Parts(ps, |ps|, |buffs|)) && Toks(buffs) == Parts(ps, n, |buffs|)
      modifies t`tmpRowBuff, t.Rows()`dirty, buffs, Mems(buffs)
      ensures TableIn(t, SentUpTo(ps[n], |rows|))
      ensures Planned(buffs, Parts(ps, |ps|, |buffs|)) && Toks(buffs) == Parts(ps, n + 1, |buffs|)
    {
      hide Planned, Toks, Parts, Pick.Valid, AllPicksValid, SentUpTo, ServerTable.Valid, ServerTable.Snapshot;
      FillTable(t, buffs, rows, last, ps, n);
    }

    lemma RowsIn(t: ServerTable)
      requires t in tables
      ensures t.Rows() <= RowsOfTables()
    {
    }

    method FillAll(buffs: seq<RecordBuff>, rowsToSend: seq<seq<nat>>, threshold: nat, ghost ps: seq<Pick>,
                   ghost states: seq<seq<RowState>>)
      requires TablesIn(states) && Picked(ps, states, rowsToSend, threshold) && |ps| == |tables|
      requires Planned(buffs, Parts(ps, |ps|, |buffs|)) && Toks(buffs) == Parts(ps, 0, |buffs|)
      modifies tables`tmpRowBuff, RowsOfTables()`dirty, buffs, Mems(buffs)
      ensures TablesIn(SentStates(ps, states, |ps|))
      ensures Planned(buffs, Parts(ps, |ps|, |buffs|)) && Toks(buffs) == Parts(ps, |ps|, |buffs|)
    {
      assert |states| == |tables| == |rowsToSend|;
      hide Planned, Toks, Parts, Pick.Valid, AllPicksValid, SentUpTo, TablesIn, Picked, SentStates;
      NoneFilled(ps, states);
      AllValidPicks(ps, states, rowsToSend, threshold);
      var numTablesLeft, n := |tables|, 0;
      while n < |tables|
        invariant 0 <= n <= |tables| && numTablesLeft == |tables| - n
        invariant TablesIn(SentStates(ps, states, n))
        invariant Planned(buffs, Parts(ps, |ps|, |buffs|)) && Toks(buffs) == Parts(ps, n, |buffs|)
      {
        numTablesLeft := numTablesLeft - 1;
        RowsIn(tables[n]);
        OneFilled(ps, states, rowsToSend, threshold, n);
        FillOne(n, tables[n], buffs, rowsToSend[n], numTablesLeft == 0, ps, SentStates(ps, states, n));
        n := n + 1;
      }
    }

    lemma NoneFilled(ps: seq<Pick>, states: seq<seq<RowState>>)
      requires |ps| == |states|
      ensures SentStates(ps, states, 0) == states
    {
    }

    lemma AllValidPicks(ps: seq<Pick>, states: seq<seq<RowState>>, rowsToSend: seq<seq<nat>>, threshold: nat)
      requires Picked(ps, states, rowsToSend, threshold)
      ensures AllPicksValid(ps)
    {
    }

    lemma OneFilled(ps: seq<Pick>, states: seq<seq<RowState>>, rowsToSend: seq<seq<nat>>, threshold: nat, n: nat)
      requires Picked(ps, states, rowsToSend, threshold) && n < |ps| == |states|
      ensures ps[n] == Pick(tables[n].tableId, SentStates(ps, states, n)[n], rowsToSend[n])
      ensures SentStates(ps, states, n + 1) == SentStates(ps, states, n)[n := SentUpTo(ps[n], |rowsToSend[n]|)]
    {
      hide Pick.Valid, RowState.Due, SentUpTo;
    }

    /** Buffers of the summed-up sizes are exactly what the plan needs. */
    lemma Sized(buffs: seq<RecordBuff>, totals: seq<nat>, ps: seq<Pick>)
      requires Totals(totals, ps) && |buffs| == |totals| && Apart(buffs)
      requires forall c {:trigger totals[c]} :: 0 <= c < |buffs| ==>
                 && buffs[c].Valid() && buffs[c].toks == []
                 && buffs[c].mem.Length == if totals[c] > 0 then totals[c] + (4 + 4) * |ps| else 0
      ensures Planned(buffs, Parts(ps, |ps|, |buffs|)) && Toks(buffs) == Parts(ps, 0, |buffs|)
    {
      hide RecordBuff.Valid, TotalSize, Pick.Valid, Pick.Items, Pick.Toks, Pick.Size, Pick.Piece;
      forall c | 0 <= c < |buffs| ensures PlannedAt(buffs[c], Part(ps, |ps|, c)) && Part(ps, 0, c) == [] {
        assert totals[c] == TotalSize(ps, |ps|, c);
        PlanSize(ps, |ps|, c);
      }
      forall c: nat | c < |buffs| ensures Toks(buffs)[c] == Parts(ps, 0, |buffs|)[c] {
        assert totals[c] >= 0 && buffs[c].toks == [];
        assert Part(ps, 0, c) == [];
      }
    }

    /** Pushes some of the dirty rows. Each client is sent at most one message; its size was known before the first
        byte of it was written; and it brings the picked rows that the client subscribes to. Picked rows are clean
        afterwards, the others as dirty as before. */
    method CreateSendServerPushRowMsgsPartial(numClients: nat, threshold: nat, factor: nat,
                                              sort: seq<nat> -> seq<nat>, ghost states: seq<seq<RowState>>)
      returns (ghost rowsToSend: seq<seq<nat>>, ghost ps: seq<Pick>)
      requires |sent| == numClients && TablesIn(states) && SortOk(sort)
      modifies this`sent, tables`tmpRowBuff, RowsOfTables()`dirty
      ensures Picked(ps, states, rowsToSend, threshold) && |ps| == |tables| && |sent| == numClients
      ensures TablesIn(SentStates(ps, states, |ps|))
      ensures forall c :: 0 <= c < numClients ==> Got(old(sent)[c], sent[c], ps, c)
    {
      hide Planned, Toks, Parts, Pick.Valid, AllPicksValid, SentUpTo, TablesIn, SortOk, Got, RecordBuff.Valid, Totals;
      var rows, sizes, picks := PickRows(numClients, threshold, factor, sort, states);
      rowsToSend, ps := rows, picks;
      ghost var totals := sizes[..];
      AddEnds(sizes, |tables|, states);
      var buffs := CreateBuffs(sizes, states);
      Sized(buffs, totals, ps);
      FillAll(buffs, rows, threshold, picks, states);
      SendKeeping(buffs, ps, SentStates(ps, states, |ps|));
    }

    method SendKeeping(buffs: seq<RecordBuff>, ghost ps: seq<Pick>, ghost states: seq<seq<RowState>>)
      requires TablesIn(states) && AllPicksValid(ps) && |sent| == |buffs|
      requires Planned(buffs, Parts(ps, |ps|, |buffs|)) && Toks(buffs) == Parts(ps, |ps|, |buffs|)
      modifies this`sent
      ensures TablesIn(states) && |sent| == |buffs|
      ensures forall c :: 0 <= c < |buffs| ==> Got(old(sent)[c], sent[c], ps, c)
    {
      hide Planned, Toks, Parts, Got, AllPicksValid;
      SendAll(buffs, ps);
    }
  }

  method NewBuffs(sizes: array<nat>) returns (buffs: seq<RecordBuff>)
    ensures |buffs| == sizes.Length && Apart(buffs) && fresh(buffs) && fresh(Mems(buffs))
    ensures forall c :: 0 <= c < |buffs| ==>
              buffs[c].Valid() && buffs[c].toks == [] && buffs[c].mem.Length == sizes[c]
  {
    hide RecordBuff.Valid;
    buffs := [];
    while |buffs| < sizes.Length
      invariant |buffs| <= sizes.Length && Apart(buffs) && fresh(buffs) && fresh(Mems(buffs))
      invariant forall c :: 0 <= c < |buffs| ==>
                  buffs[c].Valid() && buffs[c].toks == [] && buffs[c].mem.Length == sizes[c]
    {
      var buff := new RecordBuff(sizes[|buffs|]);
      assert Mems(buffs + [buff]) == Mems(buffs) + {buff.mem};
      buffs := buffs + [buff];
    }
  }
}
