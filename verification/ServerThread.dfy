/** The server thread: it applies oplog messages byte by byte, moves its clock, answers row requests and pushes rows.
    Every method is proved to do what ServerSpec says of the abstract server. */
module ServerThreads {
  import opened Codec
  import opened OpLogFormat
  import opened Options
  import opened Rows
  import opened VectorClocks
  import L = RowOpLogs
  import S = ServerSpec

  // ---- What a row oplog adds to a row ----

  /** `val` is how the row type reads one update. */
  function SparseDelta(val: bytes -> int, us: seq<(int, bytes)>): Row {
    if us == [] then map[]
    else
      var n := |us| - 1;
      Add(SparseDelta(val, us[..n]), map[us[n].0 := val(us[n].1)])
  }

  function DenseDelta(val: bytes -> int, vs: seq<bytes>): Row {
    map col | 0 <= col < |vs| :: val(vs[col])
  }

  function Delta(val: bytes -> int, log: RowLog): Row {
    match log
    case Sparse(us) => SparseDelta(val, us)
    case Dense(vs) => DenseDelta(val, vs)
  }

  /** The listed updates as numbers. */
  function ItemsOf(val: bytes -> int, us: seq<(int, bytes)>): (items: L.Items)
    ensures |items| == |us| && forall i :: 0 <= i < |us| ==> items[i] == (us[i].0, val(us[i].1))
  {
    seq(|us|, i requires 0 <= i < |us| => (us[i].0, val(us[i].1)))
  }

  /** A listed update adds to a column what all its items for that column add. */
  lemma {:induction false} DeltaIsSum(val: bytes -> int, us: seq<(int, bytes)>, col: int)
    ensures Val(SparseDelta(val, us), col) == L.SumAt(ItemsOf(val, us), col)
  {
    hide Add;
    if us != [] {
      var n := |us| - 1;
      DeltaIsSum(val, us[..n], col);
      AddVal(SparseDelta(val, us[..n]), map[us[n].0 := val(us[n].1)], col);
      assert ItemsOf(val, us)[..n] == ItemsOf(val, us[..n]);
    }
  }

  lemma DenseAt(val: bytes -> int, vs: seq<bytes>, col: int)
    ensures Val(DenseDelta(val, vs), col) == if 0 <= col < |vs| then val(vs[col]) else 0
  {
  }

  predicate HasKey(e: Entry) {
    0 <= e.table && 0 <= e.row
  }

  function KeyOf(e: Entry): Key
    requires HasKey(e)
  {
    Key(e.table, e.row)
  }

  predicate HaveKeys(es: seq<Entry>) {
    forall i :: 0 <= i < |es| ==> HasKey(es[i])
  }

  function At0(batch: map<Key, Row>, key: Key): Row {
    if key in batch then batch[key] else map[]
  }

  /** The total that some row oplogs add to every row. */
  function Total(val: bytes -> int, es: seq<Entry>): map<Key, Row>
    requires HaveKeys(es)
  {
    if es == [] then map[]
    else
      var n := |es| - 1;
      var t := Total(val, es[..n]);
      t[KeyOf(es[n]) := Add(At0(t, KeyOf(es[n])), Delta(val, es[n].log))]
  }

  lemma AddAssoc(a: Row, b: Row, c: Row)
    ensures Add(Add(a, b), c) == Add(a, Add(b, c))
  {
    var l, r := Add(Add(a, b), c), Add(a, Add(b, c));
    assert l.Keys == r.Keys;
    forall col | col in l ensures l[col] == r[col] {
      AddVal(Add(a, b), c, col);
      AddVal(a, b, col);
      AddVal(a, Add(b, c), col);
      AddVal(b, c, col);
    }
  }

  lemma AddNothing(a: Row)
    ensures Add(a, map[]) == a && Add(map[], a) == a
  {
  }

  /** Rows after some totals were added; rows that were missing start at zero. */
  function Plus(rows: map<Key, Row>, total: map<Key, Row>): map<Key, Row> {
    map key | key in rows.Keys + total.Keys :: Add(At0(rows, key), At0(total, key))
  }

  lemma PlusNone(rows: map<Key, Row>)
    ensures Plus(rows, map[]) == rows
  {
    forall key | key in rows ensures Add(rows[key], map[]) == rows[key] {
      AddNothing(rows[key]);
    }
  }

  lemma PlusOne(rows: map<Key, Row>, total: map<Key, Row>, key: Key, delta: Row)
    ensures var now := Plus(rows, total);
      Plus(rows, total[key := Add(At0(total, key), delta)]) == now[key := Add(At0(now, key), delta)]
  {
    hide Add;
    var now, next := Plus(rows, total), total[key := Add(At0(total, key), delta)];
    AddAssoc(At0(rows, key), At0(total, key), delta);
    if key !in rows && key !in total {
      AddNothing(map[]);
    }
    assert Plus(rows, next).Keys == now.Keys + {key};
    forall k | k in rows.Keys + next.Keys ensures Plus(rows, next)[k] == now[key := Add(At0(now, key), delta)][k] {
    }
  }

  datatype Request = Request(bg: int, key: Key)

  /** The rows asked for by one client, in order. */
  function KeysFor(rs: seq<Request>, c: int): seq<Key> {
    if rs == [] then []
    else
      var n := |rs| - 1;
      KeysFor(rs[..n], c) + if rs[n].bg == c then [rs[n].key] else []
  }

  function DownTo(sent: seq<(int, S.Down)>, c: int): seq<S.Down> {
    if sent == [] then []
    else
      var n := |sent| - 1;
      DownTo(sent[..n], c) + if sent[n].0 == c then [sent[n].1] else []
  }

  class Server {
    const val: bytes -> int
    const infos: map<int, Info>
    const bgs: seq<int>
    const bgClock: VectorClock
    var bgVersion: map<int, int>
    var storage: map<Key, Row>
    var dirty: set<Key>
    var subs: set<(int, Key)>
    var requests: map<int, map<int, seq<Key>>>
    /** Which logged updates each row holds. */
    ghost var ids: map<Key, set<nat>>

    ghost predicate Valid()
      reads this, bgClock
    {
      && bgClock.Abs().Valid() && bgClock.vecClock.Keys == bgVersion.Keys == (set c | c in bgs)
      && (forall i, j :: 0 <= i < j < |bgs| ==> bgs[i] != bgs[j])
      && VersionsOk(bgVersion)
      && ids.Keys == storage.Keys
      && Known(requests, bgVersion.Keys)
    }

    /** The abstract server that this one is. */
    ghost function Abs(): S.Server
      requires Valid()
      reads this, bgClock
    {
      S.Server(bgClock.Abs(),
               Versions(bgVersion),
               Cells(storage, ids),
               dirty, subs,
               Pending(requests))
    }

    constructor (val: bytes -> int, infos: map<int, Info>, bgIds: seq<int>)
      requires bgIds != [] && forall i, j :: 0 <= i < j < |bgIds| ==> bgIds[i] != bgIds[j]
      ensures Valid() && fresh(bgClock) && this.val == val && this.infos == infos && bgs == bgIds
      ensures Abs().vc.min == 0 && Abs().rows == map[] && Abs().pending == map[]
      ensures Abs().dirty == {} && Abs().subs == {}
      ensures forall c :: c in bgIds ==> Abs().vc.clk[c] == 0 && Abs().Ver(c) == 0
    {
      hide Pending;
      this.val, this.infos, bgs := val, infos, bgIds;
      var clock := new VectorClock();
      bgClock := clock;
      bgVersion, storage, dirty, subs, requests, ids := map[], map[], {}, {}, map[], map[];
      new;
      var i := 0;
      while i < |bgIds|
        invariant i <= |bgIds| && storage == map[] && ids == map[] && dirty == {} && subs == {} && requests == map[]
        invariant forall c :: c in bgClock.vecClock <==> c in bgIds[..i]
        invariant forall c :: c in bgClock.vecClock ==> bgClock.vecClock[c] == 0
        invariant forall c :: c in bgVersion <==> c in bgIds[..i]
        invariant forall c :: c in bgVersion ==> bgVersion[c] == -1
        invariant i == 0 ==> bgClock.vecClock == map[] && bgClock.minClock == -1
        invariant i > 0 ==> bgClock.Abs().Valid()
      {
        assert bgIds[..i + 1] == bgIds[..i] + [bgIds[i]] && bgIds[i] !in bgIds[..i];
        bgClock.AddClock(bgIds[i], 0);
        bgVersion := bgVersion[bgIds[i] := -1];
        i := i + 1;
      }
      assert bgIds[..i] == bgIds && bgIds[0] in bgClock.vecClock;
      forall c ensures (c in bgVersion.Keys <==> c in bgs) && (c in bgClock.vecClock.Keys <==> c in bgs) {
      }
      PendingNone();
    }

    method GetMinClock() returns (clock: int)
      ensures clock == bgClock.minClock
    {
      clock := bgClock.minClock;
    }

    /** The batches of this client that were applied: one more than the version number, which starts at -1. */
    method GetBgVersion(c: int) returns (version: int)
      requires Valid() && c in bgVersion
      ensures version == bgVersion[c] && version + 1 == Abs().Ver(c)
    {
      version := bgVersion[c];
    }

    method FindCreateRow(key: Key) returns (row: Row)
      requires Valid()
      modifies this`storage, this`ids
      ensures Valid() && Abs() == old(Abs()).Create({key}) && row == Abs().RowAt(key).vals
      ensures row == if key in old(storage) then old(storage)[key] else map[]
      ensures storage == old(storage)[key := row]
    {
      hide S.Server.Create, Cells, Pending;
      CellsCreate(storage, ids, Abs(), key);
      if key !in storage {
        storage := storage[key := map[]];
        ids := ids[key := {}];
      }
      CellsAt(storage, ids, key);
      row := storage[key];
    }

    method ClockUntil(c: int, clock: int) returns (changed: bool)
      requires Valid() && c in bgVersion
      modifies bgClock
      ensures Valid() && Abs() == old(Abs()).(vc := old(Abs()).vc.TickUntil(c, clock))
      ensures changed <==> Abs().vc.min != old(Abs()).vc.min
    {
      TickUntilValid(bgClock.Abs(), c, clock);
      var moved := bgClock.TickUntil(c, clock);
      changed := moved != 0;
    }

    method AddRowRequest(c: int, key: Key, clock: int)
      requires Valid() && c in bgVersion
      modifies this`requests
      ensures Valid()
      ensures Abs() == old(Abs()).(pending := old(Abs()).pending[(clock, c) := old(Abs()).Pend(clock, c) + [key]])
    {
      hide Pending, Cells, Known;
      ghost var was := requests;
      PendingAt(requests, clock, c);
      if clock !in requests {
        requests := requests[clock := map[]];
      }
      if c !in requests[clock] {
        requests := requests[clock := requests[clock][c := []]];
      }
      requests := requests[clock := requests[clock][c := requests[clock][c] + [key]]];
      ghost var keys := old(Abs()).Pend(clock, c) + [key];
      PendingPut(was, clock, c, keys);
      KnownPut(was, bgVersion.Keys, clock, c, keys);
      assert requests[clock] == (if clock in was then was[clock] else map[])[c := keys];
      assert requests == was[clock := (if clock in was then was[clock] else map[])[c := keys]];
    }

    /** All requests that wait for the current minimum, in the order in which each client made them. */
    method GetFulfilledRowRequests() returns (rs: seq<Request>)
      requires Valid()
      modifies this`requests
      ensures Valid()
      ensures Abs() == old(Abs()).(pending := NotAt(old(Abs()).pending, bgClock.minClock))
      ensures forall c :: KeysFor(rs, c) == old(Abs()).Pend(bgClock.minClock, c)
      ensures forall i :: 0 <= i < |rs| ==> rs[i].bg in bgVersion
    {
      hide Pending, Cells, KeysFor, NotAt;
      var clock := bgClock.minClock;
      PendingDrop(requests, clock);
      forall c {
        PendingAt(requests, clock, c);
      }
      rs := [];
      if clock in requests {
        rs := Gather(requests[clock]);
        requests := requests - {clock};
      } else {
        assert requests - {clock} == requests;
        forall c ensures KeysFor([], c) == [] {
          KeysForNone(c);
        }
      }
    }

    method CreateRow(key: Key)
      requires Valid() && key !in storage
      modifies this`storage, this`ids
      ensures storage == old(storage)[key := map[]] && ids == old(ids)[key := {}] && Valid()
    {
      storage := storage[key := map[]];
      ids := ids[key := {}];
    }

    /** Adds a row oplog to its row, if there is such a row, and marks the row dirty. */
    method ApplyRowOpLog(key: Key, log: RowLog) returns (found: bool)
      requires Valid()
      modifies this`storage, this`dirty
      ensures Valid() && (found <==> key in old(storage))
      ensures storage == if found then old(storage)[key := Add(old(storage)[key], Delta(val, log))] else old(storage)
      ensures dirty == if found then old(dirty) + {key} else old(dirty)
    {
      if key !in storage {
        return false;
      }
      var row;
      match log {
        case Sparse(us) => row := ApplyBatchInc(storage[key], us);
        case Dense(vs) => row := ApplyDenseBatchInc(storage[key], vs);
      }
      storage := storage[key := row];
      dirty := dirty + {key};
      found := true;
    }

    /** Column by column, as listed. */
    method ApplyBatchInc(row: Row, us: seq<(int, bytes)>) returns (r: Row)
      ensures r == Add(row, SparseDelta(val, us))
      ensures forall col :: Val(r, col) == Val(row, col) + L.SumAt(ItemsOf(val, us), col)
    {
      hide Add, SparseDelta;
      AddNothing(row);
      SparseNone(val);
      r := row;
      var i := 0;
      while i < |us|
        invariant i <= |us| && r == Add(row, SparseDelta(val, us[..i]))
      {
        SparseMore(val, us, i);
        AddAssoc(row, SparseDelta(val, us[..i]), map[us[i].0 := val(us[i].1)]);
        AddOne(r, us[i].0, val(us[i].1));
        r := r[us[i].0 := Val(r, us[i].0) + val(us[i].1)];
        i := i + 1;
      }
      assert us[..i] == us;
      forall col ensures Val(r, col) == Val(row, col) + L.SumAt(ItemsOf(val, us), col) {
        AddVal(row, SparseDelta(val, us), col);
        DeltaIsSum(val, us, col);
      }
    }

    /** The first columns, from column 0 on. */
    method ApplyDenseBatchInc(row: Row, vs: seq<bytes>) returns (r: Row)
      ensures r == Add(row, DenseDelta(val, vs))
      ensures forall col :: Val(r, col) == Val(row, col) + if 0 <= col < |vs| then val(vs[col]) else 0
    {
      hide Add, DenseDelta;
      AddNothing(row);
      DenseNone(val);
      r := row;
      var i := 0;
      while i < |vs|
        invariant i <= |vs| && r == Add(row, DenseDelta(val, vs[..i]))
      {
        DenseMore(val, vs, i);
        AddAssoc(row, DenseDelta(val, vs[..i]), map[i := val(vs[i])]);
        AddOne(r, i, val(vs[i]));
        r := r[i := Val(r, i) + val(vs[i])];
        i := i + 1;
      }
      assert vs[..i] == vs;
      forall col ensures Val(r, col) == Val(row, col) + if 0 <= col < |vs| then val(vs[col]) else 0 {
        AddVal(row, DenseDelta(val, vs), col);
        DenseAt(val, vs, col);
      }
    }

    /** An entry is applied once: if its row was missing, the row is created and the entry applied again. */
    method ApplyEntry(key: Key, log: RowLog)
      requires Valid()
      modifies this`storage, this`dirty, this`ids
      ensures Valid() && ids == if key in old(ids) then old(ids) else old(ids)[key := {}]
      ensures storage == old(storage)[key := Add(At0(old(storage), key), Delta(val, log))]
      ensures dirty == old(dirty) + {key}
    {
      var found := ApplyRowOpLog(key, log);
      if !found {
        CreateRow(key);
        var again := ApplyRowOpLog(key, log);
      }
    }

    /** The rows, dirty bits and ids. */
    ghost function Stored(): StoredRows
      reads this`storage, this`dirty, this`ids
    {
      StoredRows(storage, dirty, ids)
    }

    /** Reads the message and applies each row oplog once. */
    method ApplyAll(data: bytes)
      requires Valid() && data != [] && MsgReadable(infos, data) && HaveKeys(MsgEntries(infos, data))
      modifies this`storage, this`dirty, this`ids
      ensures Valid() && Applied(val, old(Stored()), MsgEntries(infos, data), Stored())
    {
      hide MsgReadable, MsgEntries, Known, VersionsOk, SerializedOpLogReader.Valid, SerializedOpLogReader.Rest, Applied;
      NothingApplied(val, Stored());
      var reader := new SerializedOpLogReader(data, infos);
      var toRead := reader.Restart();
      if toRead {
        Consume(reader);
      }
    }

    method Consume(reader: SerializedOpLogReader)
      requires Valid() && reader.Valid() && HaveKeys(reader.Rest())
      modifies reader, this`storage, this`dirty, this`ids
      ensures Valid() && Applied(val, old(Stored()), old(reader.Rest()), Stored())
    {
      hide Known, VersionsOk, SerializedOpLogReader.Valid, SerializedOpLogReader.Rest, Applied;
      NothingApplied(val, Stored());
      ghost var was, all := Stored(), reader.Rest();
      ghost var past: seq<Entry> := [];
      var next, started := reader.Next();
      while next.Some?
        invariant Valid() && reader.Valid() && HaveKeys(past) && Applied(val, was, past, Stored())
        invariant all == past + if next.Some? then [next.value] + reader.Rest() else []
        decreases |all| - |past|
      {
        assert all[|past|] == next.value;
        Apply1(was, past, next.value);
        past := past + [next.value];
        next, started := reader.Next();
      }
      assert all == past;
    }

    method Apply1(ghost was: StoredRows, ghost past: seq<Entry>, e: Entry)
      requires Valid() && HaveKeys(past) && HasKey(e) && Applied(val, was, past, Stored())
      modifies this`storage, this`dirty, this`ids
      ensures Valid() && HaveKeys(past + [e]) && Applied(val, was, past + [e], Stored())
    {
      hide Plus, Delta, IdsPlus, Add, Total;
      ghost var total := Total(val, past);
      TotalNext(val, past, e);
      PlusOne(was.storage, total, KeyOf(e), Delta(val, e.log));
      IdsPlusOne(was.ids, total.Keys, KeyOf(e));
      ApplyEntry(KeyOf(e), e.log);
    }

    /** Applies the message of client c that carries its next version. */
    method ApplyOpLogUpdateVersion(data: bytes, c: int, version: int, ghost given: map<Key, set<nat>>)
      requires Valid() && DataOk(infos, data) && c in bgVersion && version == bgVersion[c] + 1
      modifies this`bgVersion, this`storage, this`dirty, this`ids
      ensures Valid() && Abs() == old(Abs()).Apply(c, BatchOf(val, infos, data, given))
    {
      hide MsgReadable, MsgEntries, Total, S.Server.Apply, Pending, Cells, Plus, IdsPlus, BatchCells, DataOk,
           DataEntries,
           Versions, VersionsOk;
      VersionsNext(bgVersion, c);
      ghost var s, total := Abs(), Total(val, DataEntries(infos, data));
      PlusIsApply(s, storage, ids, total, given, BatchOf(val, infos, data, given), c);
      ApplyMeta(s, c, total, given);
      ghost var rows, wasIds, clock := storage, ids, bgClock.Abs();
      bgVersion := bgVersion[c := version];
      ApplyData(data);
      GiveIds(wasIds, total.Keys, given);
      ids := IdsPlus(wasIds, total.Keys, given);
    }

    method ApplyData(data: bytes)
      requires Valid() && DataOk(infos, data)
      modifies this`storage, this`dirty, this`ids
      ensures Valid() && Applied(val, old(Stored()), DataEntries(infos, data), Stored())
    {
      hide MsgReadable, MsgEntries;
      if data == [] {
        NothingApplied(val, Stored());
      } else {
        ApplyAll(data);
      }
    }

    method Subscribe(c: int, key: Key)
      requires Valid()
      modifies this`subs
      ensures Valid() && Abs() == old(Abs()).(subs := old(Abs()).subs + {(c, key)})
    {
      subs := subs + {(c, key)};
    }

    /** The dirty rows that client c subscribed to. PushSender has the messages in which they travel. */
    method DueRows(c: int) returns (rows: map<Key, Row>)
      requires Valid()
      ensures rows.Keys == set k | k in dirty && (c, k) in subs
      ensures forall k :: k in rows ==> rows[k] == Abs().RowAt(k).vals
    {
      hide Versions, Pending;
      rows := map k | k in dirty && (c, k) in subs :: At0(storage, k);
    }

    method ResetDirty()
      requires Valid()
      modifies this`dirty
      ensures Valid() && Abs() == old(Abs()).Cleaned()
    {
      hide Versions, Pending, Cells;
      dirty := dirty - set w | w in subs :: w.1;
    }
  }

  predicate VersionsOk(version: map<int, int>) {
    forall c :: c in version ==> -1 <= version[c]
  }

  ghost function Versions(version: map<int, int>): map<int, nat>
    requires VersionsOk(version)
  {
    map c | c in version :: Batches(version, c)
  }

  /** Versions start at 0, after -1. */
  function Batches(version: map<int, int>, c: int): nat
    requires VersionsOk(version) && c in version
  {
    version[c] + 1
  }

  lemma VersionsNext(version: map<int, int>, c: int)
    requires VersionsOk(version) && c in version
    ensures VersionsOk(version[c := version[c] + 1]) && c in Versions(version)
    ensures Versions(version[c := version[c] + 1]) == Versions(version)[c := Versions(version)[c] + 1]
  {
  }

  lemma TotalNext(val: bytes -> int, es: seq<Entry>, e: Entry)
    requires HaveKeys(es) && HasKey(e)
    ensures HaveKeys(es + [e])
    ensures var t, key := Total(val, es), KeyOf(e);
      && Total(val, es + [e]) == t[key := Add(At0(t, key), Delta(val, e.log))]
      && Total(val, es + [e]).Keys == t.Keys + {key}
  {
    assert (es + [e])[..|es|] == es;
  }

  lemma GiveIds(ids: map<Key, set<nat>>, keys: set<Key>, given: map<Key, set<nat>>)
    ensures IdsPlus(ids, keys, given).Keys == IdsPlus(ids, keys, map[]).Keys
  {
  }

  datatype StoredRows = StoredRows(storage: map<Key, Row>, dirty: set<Key>, ids: map<Key, set<nat>>)

  /** The rows as they are after some entries: their totals were added, and their rows are dirty. */
  ghost predicate Applied(val: bytes -> int, was: StoredRows, es: seq<Entry>, now: StoredRows)
    requires HaveKeys(es)
  {
    && now.storage == Plus(was.storage, Total(val, es))
    && now.dirty == was.dirty + Total(val, es).Keys
    && now.ids == IdsPlus(was.ids, Total(val, es).Keys, map[])
  }

  lemma NothingApplied(val: bytes -> int, s: StoredRows)
    ensures Applied(val, s, [], s)
  {
    PlusNone(s.storage);
  }

  /** The row oplogs in the data of an oplog message; a message may come without data. */
  ghost predicate DataOk(infos: map<int, Info>, data: bytes) {
    data != [] ==> MsgReadable(infos, data) && HaveKeys(MsgEntries(infos, data))
  }

  ghost function DataEntries(infos: map<int, Info>, data: bytes): (es: seq<Entry>)
    requires DataOk(infos, data)
    ensures HaveKeys(es)
  {
    if data == [] then [] else MsgEntries(infos, data)
  }

  /** The batch that some data stands for, when `given` says which logged updates each of its rows holds. */
  ghost function BatchOf(val: bytes -> int, infos: map<int, Info>, data: bytes, given: map<Key, set<nat>>): map<Key,
                         Cell>
    requires DataOk(infos, data)
  {
    BatchCells(Total(val, DataEntries(infos, data)), given)
  }

  ghost function BatchCells(total: map<Key, Row>, given: map<Key, set<nat>>): map<Key, Cell> {
    map key | key in total :: Cell(total[key], IdsAt(given, key))
  }

  ghost function IdsAt(ids: map<Key, set<nat>>, key: Key): set<nat> {
    if key in ids then ids[key] else {}
  }

  ghost function IdsPlus(ids: map<Key, set<nat>>, keys: set<Key>, more: map<Key, set<nat>>): map<Key, set<nat>> {
    map key | key in ids.Keys + keys :: if key in keys then IdsAt(ids, key) + IdsAt(more, key) else ids[key]
  }

  lemma IdsPlusOne(ids: map<Key, set<nat>>, keys: set<Key>, key: Key)
    ensures var now := IdsPlus(ids, keys, map[]);
      IdsPlus(ids, keys + {key}, map[]) == if key in now then now else now[key := {}]
  {
    var now, next := IdsPlus(ids, keys, map[]), IdsPlus(ids, keys + {key}, map[]);
    assert next.Keys == now.Keys + {key};
    forall k | k in next ensures next[k] == IdsAt(now, k) {
      assert IdsAt(ids, k) + {} == IdsAt(ids, k);
    }
  }

  /** One row after a batch was applied. */
  ghost function Grown(rows: map<Key, Row>, ids: map<Key, set<nat>>, total: map<Key, Row>, given: map<Key, set<nat>>,
                       key: Key): Cell
  {
    Cell(Add(At0(rows, key), At0(total, key)),
         if key in total then IdsAt(ids, key) + IdsAt(given, key) else IdsAt(ids, key))
  }

  lemma PlusAt(rows: map<Key, Row>, ids: map<Key, set<nat>>, total: map<Key, Row>, given: map<Key, set<nat>>, key: Key)
    requires ids.Keys == rows.Keys
    ensures Plus(rows, total).Keys == IdsPlus(ids, total.Keys, given).Keys == rows.Keys + total.Keys
    ensures var cells := Cells(Plus(rows, total), IdsPlus(ids, total.Keys, given));
      && (key in cells <==> key in rows.Keys + total.Keys)
      && (key in cells ==> cells[key] == Grown(rows, ids, total, given, key))
  {
    hide Add;
  }

  lemma ApplyAt(s: S.Server, rows: map<Key, Row>, ids: map<Key, set<nat>>, total: map<Key, Row>,
                given: map<Key, set<nat>>, batch: map<Key, Cell>, c: int, key: Key)
    requires ids.Keys == rows.Keys && s.rows == Cells(rows, ids)
    requires batch == BatchCells(total, given)
    ensures key in s.Apply(c, batch).rows <==> key in rows.Keys + total.Keys
    ensures key in s.Apply(c, batch).rows ==> s.Apply(c, batch).rows[key] == Grown(rows, ids, total, given, key)
  {
    hide Add;
    if key in rows && key !in total {
      AddNothing(rows[key]);
    }
  }

  /** Adding totals to rows is what Apply does to cells. */
  lemma PlusIsApply(s: S.Server, rows: map<Key, Row>, ids: map<Key, set<nat>>, total: map<Key, Row>,
                    given: map<Key, set<nat>>, batch: map<Key, Cell>, c: int)
    requires ids.Keys == rows.Keys && s.rows == Cells(rows, ids)
    requires batch == BatchCells(total, given)
    ensures Plus(rows, total).Keys == IdsPlus(ids, total.Keys, given).Keys
    ensures s.Apply(c, batch).rows == Cells(Plus(rows, total), IdsPlus(ids, total.Keys, given))
  {
    hide S.Server.Apply, Cells, Plus, IdsPlus, Grown, BatchCells;
    PlusAt(rows, ids, total, given, Key(0, 0));
    var l, r := s.Apply(c, batch).rows, Cells(Plus(rows, total), IdsPlus(ids, total.Keys, given));
    forall key ensures (key in l <==> key in r) && (key in l ==> l[key] == r[key]) {
      PlusAt(rows, ids, total, given, key);
      ApplyAt(s, rows, ids, total, given, batch, c, key);
    }
  }

  lemma ApplyMeta(s: S.Server, c: int, total: map<Key, Row>, given: map<Key, set<nat>>)
    ensures var batch := BatchCells(total, given);
      s.Apply(c, batch) == s.(ver := s.ver[c := s.Ver(c) + 1], dirty := s.dirty + total.Keys,
                              rows := s.Apply(c, batch).rows)
  {
    assert BatchCells(total, given).Keys == total.Keys;
  }

  lemma AddOne(r: Row, col: int, x: int)
    ensures Add(r, map[col := x]) == r[col := Val(r, col) + x]
  {
  }

  lemma SparseNone(val: bytes -> int)
    ensures SparseDelta(val, []) == map[]
  {
  }

  lemma SparseMore(val: bytes -> int, us: seq<(int, bytes)>, i: nat)
    requires i < |us|
    ensures SparseDelta(val, us[..i + 1]) == Add(SparseDelta(val, us[..i]), map[us[i].0 := val(us[i].1)])
  {
    assert us[..i + 1][..i] == us[..i];
  }

  lemma DenseNone(val: bytes -> int)
    ensures DenseDelta(val, []) == map[]
  {
  }

  lemma DenseMore(val: bytes -> int, vs: seq<bytes>, i: nat)
    requires i < |vs|
    ensures DenseDelta(val, vs[..i + 1]) == Add(DenseDelta(val, vs[..i]), map[i := val(vs[i])])
  {
    var d := DenseDelta(val, vs[..i]);
    AddOne(d, i, val(vs[i]));
    assert Val(d, i) == 0;
    assert DenseDelta(val, vs[..i + 1]) == d[i := val(vs[i])];
  }

  /** The requests of all clients, one client after the other. */
  method Gather(byBg: map<int, seq<Key>>) returns (rs: seq<Request>)
    ensures forall c :: KeysFor(rs, c) == if c in byBg then byBg[c] else []
    ensures forall i :: 0 <= i < |rs| ==> rs[i].bg in byBg
  {
    hide KeysFor;
    rs := [];
    forall c ensures KeysFor([], c) == [] {
      KeysForNone(c);
    }
    var left := byBg.Keys;
    while exists c :: c in left
      invariant left <= byBg.Keys
      invariant forall c :: KeysFor(rs, c) == if c in byBg && c !in left then byBg[c] else []
      invariant forall i :: 0 <= i < |rs| ==> rs[i].bg in byBg
      decreases |left|
    {
      var c :| c in left;
      left := left - {c};
      ghost var was := rs;
      rs := rs + seq(|byBg[c]|, i requires 0 <= i < |byBg[c]| => Request(c, byBg[c][i]));
      forall d ensures KeysFor(rs, d) == if d == c then KeysFor(was, d) + byBg[c] else KeysFor(was, d) {
        KeysForMore(was, c, byBg[c], d);
      }
    }
  }

  lemma KeysForNone(c: int)
    ensures KeysFor([], c) == []
  {
  }

  ghost function NotAt(pending: map<(int, int), seq<Key>>, clock: int): map<(int, int), seq<Key>> {
    map w | w in pending && w.0 != clock :: pending[w]
  }

  lemma PendingAt(r: map<int, map<int, seq<Key>>>, clock: int, c: int)
    ensures (clock, c) in Pending(r) <==> clock in r && c in r[clock]
    ensures (clock, c) in Pending(r) ==> Pending(r)[(clock, c)] == r[clock][c]
  {
  }

  lemma PendingNone()
    ensures Pending(map[]) == map[]
  {
  }

  /** Only clients that are connected wait. */
  ghost predicate Known(r: map<int, map<int, seq<Key>>>, clients: set<int>) {
    forall clock, c :: clock in r && c in r[clock] ==> c in clients
  }

  lemma KnownPut(r: map<int, map<int, seq<Key>>>, clients: set<int>, clock: int, c: int, keys: seq<Key>)
    requires Known(r, clients) && c in clients
    ensures Known(r[clock := (if clock in r then r[clock] else map[])[c := keys]], clients)
  {
  }

  lemma PendingPut(r: map<int, map<int, seq<Key>>>, clock: int, c: int, keys: seq<Key>)
    ensures Pending(r[clock := (if clock in r then r[clock] else map[])[c := keys]]) == Pending(r)[(clock, c) := keys]
  {
    hide Pending;
    var q := r[clock := (if clock in r then r[clock] else map[])[c := keys]];
    forall w: (int, int)
      ensures w in Pending(q) <==> w in Pending(r) || w == (clock, c)
      ensures w in Pending(q) ==> Pending(q)[w] == if w == (clock, c) then keys else Pending(r)[w]
    {
      PendingAt(q, w.0, w.1);
      PendingAt(r, w.0, w.1);
    }
  }

  lemma PendingDrop(r: map<int, map<int, seq<Key>>>, clock: int)
    ensures Pending(r - {clock}) == NotAt(Pending(r), clock)
  {
    hide Pending;
    var q := r - {clock};
    forall w: (int, int)
      ensures w in Pending(q) <==> w in Pending(r) && w.0 != clock
      ensures w in Pending(q) ==> Pending(q)[w] == Pending(r)[w]
    {
      PendingAt(q, w.0, w.1);
      PendingAt(r, w.0, w.1);
    }
  }

  lemma CellsAt(storage: map<Key, Row>, ids: map<Key, set<nat>>, key: Key)
    requires ids.Keys == storage.Keys
    ensures key in Cells(storage, ids) <==> key in storage
    ensures key in storage ==> Cells(storage, ids)[key] == Cell(storage[key], ids[key])
  {
  }

  /** Creating a row that is missing. */
  lemma CellsCreate(storage: map<Key, Row>, ids: map<Key, set<nat>>, s: S.Server, key: Key)
    requires ids.Keys == storage.Keys && s.rows == Cells(storage, ids)
    ensures s.Create({key}) == s.(rows := if key in storage then Cells(storage, ids)
                                          else Cells(storage[key := map[]], ids[key := {}]))
  {
    var created := s.Create({key}).rows;
    if key in storage {
      assert created == Cells(storage, ids);
    } else {
      assert created == Cells(storage[key := map[]], ids[key := {}]);
    }
  }

  lemma {:induction false} KeysForMore(rs: seq<Request>, c: int, keys: seq<Key>, d: int)
    ensures KeysFor(rs + seq(|keys|, i requires 0 <= i < |keys| => Request(c, keys[i])), d)
         == KeysFor(rs, d) + if d == c then keys else []
  {
    var more := seq(|keys|, i requires 0 <= i < |keys| => Request(c, keys[i]));
    if keys == [] {
      assert rs + more == rs;
    } else {
      var n := |keys| - 1;
      KeysForMore(rs, c, keys[..n], d);
      assert (rs + more)[..|rs| + n] == rs + seq(n, i requires 0 <= i < n => Request(c, keys[..n][i]));
      assert keys == keys[..n] + [keys[n]];
    }
  }

  ghost function Cells(storage: map<Key, Row>, ids: map<Key, set<nat>>): map<Key, Cell>
    requires ids.Keys == storage.Keys
  {
    map key | key in storage :: Cell(storage[key], ids[key])
  }

  ghost function Pending(requests: map<int, map<int, seq<Key>>>): map<(int, int), seq<Key>> {
    var ws := set clock, bg | clock in requests && bg in requests[clock] :: (clock, bg);
    map w | w in ws :: requests[w.0][w.1]
  }

  // ---- The thread ----

  /** What goes over the wire: the version number is the last one applied. */
  datatype Msg =
    | RowReply(key: Key, clock: int, version: int, row: Row)
    | PushRows(clock: int, version: int, rows: map<Key, Row>)

  /** The message for an answer of the abstract server. */
  function Wire(d: S.Down): Msg {
    match d
    case Reply(key, clock, ver, cell) => RowReply(key, clock, ver - 1, cell.vals)
    case Push(clock, ver, rows) => PushRows(clock, ver - 1, map k | k in rows :: rows[k].vals)
  }

  function Wires(ds: seq<S.Down>): (ms: seq<Msg>)
    ensures |ms| == |ds|
    ensures forall i :: 0 <= i < |ds| ==> ms[i] == Wire(ds[i])
  {
    seq(|ds|, i requires 0 <= i < |ds| => Wire(ds[i]))
  }

  /** The messages for one client. */
  function To(sent: seq<(int, Msg)>, c: int): seq<Msg> {
    if sent == [] then []
    else
      var n := |sent| - 1;
      To(sent[..n], c) + if sent[n].0 == c then [sent[n].1] else []
  }

  lemma ToMore(sent: seq<(int, Msg)>, c: int, m: Msg)
    ensures forall d :: To(sent + [(c, m)], d) == To(sent, d) + if d == c then [m] else []
  {
    assert (sent + [(c, m)])[..|sent|] == sent;
  }

  /** They are all that was sent to the client, each as often as it was sent. */
  lemma {:induction false} ToIs(sent: seq<(int, Msg)>, c: int, m: Msg)
    ensures multiset(To(sent, c))[m] == multiset(sent)[(c, m)]
  {
    if sent != [] {
      ToIs(sent[..|sent| - 1], c, m);
      assert sent == sent[..|sent| - 1] + [sent[|sent| - 1]];
    }
  }

  /** The answers to some requests of client c. */
  function Answers(s: S.Server, c: int, keys: seq<Key>): seq<Msg> {
    seq(|keys|, i requires 0 <= i < |keys| => RowReply(keys[i], s.vc.min, s.Ver(c) - 1, s.RowAt(keys[i]).vals))
  }

  function Pairs(rs: seq<Request>): set<(int, Key)> {
    set i | 0 <= i < |rs| :: (rs[i].bg, rs[i].key)
  }

  function Seconds(pairs: set<(int, Key)>): set<Key> {
    set r | r in pairs :: r.1
  }

  lemma SecondsMore(pairs: set<(int, Key)>, p: (int, Key))
    ensures Seconds(pairs + {p}) == Seconds(pairs) + {p.1}
  {
    assert p in pairs + {p} && p.1 in Seconds(pairs + {p});
    forall key | key in Seconds(pairs + {p}) ensures key in Seconds(pairs) + {p.1} {
      var r :| r in pairs + {p} && r.1 == key;
    }
    forall key | key in Seconds(pairs) ensures key in Seconds(pairs + {p}) {
      var r :| r in pairs && r.1 == key;
      assert r in pairs + {p};
    }
  }

  lemma CreateMore(s: S.Server, keys: set<Key>, key: Key)
    ensures s.Create(keys).Create({key}) == s.Create(keys + {key})
    ensures s.Create(keys).RowAt(key) == s.RowAt(key)
    ensures s.Create(keys) == s.(rows := s.Create(keys).rows)
  {
  }

  /** The server after some of the waiting requests were answered. */
  ghost function Partly(s: S.Server, push: bool, rs: seq<Request>): S.Server {
    s.Create(Seconds(Pairs(rs))).(
      subs := if push then s.subs + Pairs(rs) else s.subs,
      pending := NotAt(s.pending, s.vc.min))
  }

  lemma {:induction false} KeysForIn(rs: seq<Request>, c: int, key: Key)
    ensures key in KeysFor(rs, c) <==> (c, key) in Pairs(rs)
  {
    if rs != [] {
      var n := |rs| - 1;
      KeysForIn(rs[..n], c, key);
      PairsMore(rs[..n], rs[n]);
      assert rs == rs[..n] + [rs[n]];
    }
  }

  lemma PairsMore(rs: seq<Request>, r: Request)
    ensures Pairs(rs + [r]) == Pairs(rs) + {(r.bg, r.key)}
  {
    var more := rs + [r];
    forall p | p in Pairs(rs) + {(r.bg, r.key)} ensures p in Pairs(more) {
      if p in Pairs(rs) {
        var i :| 0 <= i < |rs| && p == (rs[i].bg, rs[i].key);
        assert more[i] == rs[i];
      } else {
        assert more[|rs|] == r;
      }
    }
    forall p | p in Pairs(more) ensures p in Pairs(rs) + {(r.bg, r.key)} {
      var i :| 0 <= i < |more| && p == (more[i].bg, more[i].key);
      assert i < |rs| ==> more[i] == rs[i];
    }
  }

  /** When all requests that waited were answered, the server is the fulfilled one. */
  lemma AllReleased(s: S.Server, push: bool, rs: seq<Request>)
    requires forall c :: KeysFor(rs, c) == s.Pend(s.vc.min, c)
    ensures Partly(s, push, rs) == s.Fulfil(push)
  {
    hide KeysFor, Pairs, S.Server.Ready;
    forall p: (int, Key) ensures p in Pairs(rs) <==> p in s.Ready() {
      KeysForIn(rs, p.0, p.1);
      ReadyIs(s, p.0, p.1);
    }
    assert Pairs(rs) == s.Ready();
  }

  lemma ReadyIs(s: S.Server, c: int, key: Key)
    ensures (c, key) in s.Ready() <==> key in s.Pend(s.vc.min, c)
  {
    if key in s.Pend(s.vc.min, c) {
      assert (s.vc.min, c) in s.pending && key in s.pending[(s.vc.min, c)];
    }
  }

  lemma PartlyNext(s: S.Server, push: bool, rs: seq<Request>, r: Request)
    ensures var t := Partly(s, push, rs);
      Partly(s, push, rs + [r])
        == t.Create({r.key}).(subs := if push then t.subs + {(r.bg, r.key)} else t.subs)
    ensures Partly(s, push, rs).vc == s.vc && Partly(s, push, rs).ver == s.ver
    ensures Partly(s, push, rs + [r]).RowAt(r.key) == s.RowAt(r.key)
  {
    hide Pairs, Seconds, NotAt;
    PairsMore(rs, r);
    SecondsMore(Pairs(rs), (r.bg, r.key));
    CreateMore(s, Seconds(Pairs(rs)), r.key);
    CreateMore(s, Seconds(Pairs(rs + [r])), r.key);
  }

  class ServerThread {
    const push: bool
    const server: Server
    var sent: seq<(int, Msg)>

    ghost predicate Valid()
      reads this, server, server.bgClock
    {
      server.Valid()
    }

    constructor (push: bool, server: Server)
      requires server.Valid()
      ensures Valid() && this.push == push && this.server == server && sent == []
    {
      this.push, this.server, sent := push, server, [];
    }

    /** Under SSPPush, an answered client is sent the row from then on whenever it changes. */
    method RowSubscribe(c: int, key: Key)
      requires Valid()
      modifies server`subs
      ensures Valid() && server.Abs()
           == old(server.Abs()).(subs := if push then old(server.Abs()).subs + {(c, key)} else old(server.Abs()).subs)
    {
      if push {
        server.Subscribe(c, key);
      }
    }

    method ReplyRowRequest(c: int, key: Key, row: Row, clock: int, version: int)
      modifies this`sent
      ensures sent == old(sent) + [(c, RowReply(key, clock, version, row))]
      ensures forall d :: To(sent, d) == To(old(sent), d) + if d == c then [RowReply(key, clock, version, row)] else []
    {
      ToMore(sent, c, RowReply(key, clock, version, row));
      sent := sent + [(c, RowReply(key, clock, version, row))];
    }

    /** Finds or creates the row, subscribes the client to it, and answers. */
    method Answer(c: int, key: Key)
      requires Valid() && c in server.bgVersion
      modifies this`sent, server`storage, server`ids, server`subs
      ensures Valid()
      ensures var s := old(server.Abs()).Create({key});
        server.Abs() == s.(subs := if push then s.subs + {(c, key)} else s.subs)
      ensures var s := old(server.Abs());
        forall d :: To(sent, d) == To(old(sent), d) + if d == c then Answers(s, c, [key]) else []
      ensures sent == old(sent)
                      + [(c, RowReply(key, server.bgClock.minClock, server.bgVersion[c],
                                      if key in old(server.storage) then old(server.storage)[key] else map[]))]
    {
      hide S.Server.Create, Pending, Versions, Cells;
      var version := server.GetBgVersion(c);
      ghost var s := server.Abs();
      CreateMore(s, {key}, key);
      var row := server.FindCreateRow(key);
      RowSubscribe(c, key);
      var clock := server.GetMinClock();
      ReplyRowRequest(c, key, row, clock, version);
    }

    /** A client that asks for a clock not reached waits. Any other is sent one message: the row as it is stored, or
        zero if there is none, with the server's clock and the version of the client's last batch. */
    method HandleRowRequest(c: int, key: Key, clock: int)
      requires Valid() && c in server.bgVersion
      modifies this`sent, server`requests, server`storage, server`ids, server`subs
      ensures server.bgClock.minClock < clock ==> sent == old(sent)
      ensures clock <= server.bgClock.minClock ==>
        sent == old(sent) + [(c, RowReply(key, server.bgClock.minClock, server.bgVersion[c],
                                          if key in old(server.storage) then old(server.storage)[key] else map[]))]
      ensures Valid() && server.Abs() == old(server.Abs()).OnRowRequest(push, c, key, clock).0
      ensures var down := old(server.Abs()).OnRowRequest(push, c, key, clock).1;
        forall d :: To(sent, d) == To(old(sent), d) + if d == c then Wires(down) else []
    {
      hide S.Server.Create, Pending, Versions, Cells;
      var serverClock := server.GetMinClock();
      if serverClock < clock {
        server.AddRowRequest(c, key, clock);
        assert forall d :: To(sent, d) == To(sent, d) + Wires([]);
        return;
      }
      CreateMore(server.Abs(), {key}, key);
      assert Wires(server.Abs().OnRowRequest(push, c, key, clock).1) == Answers(server.Abs(), c, [key]);
      Answer(c, key);
    }

    /** Some of the requests that waited for the clock reached were answered, in each client's order. */
    ghost predicate Answered(s: S.Server, was: seq<(int, Msg)>, rs: seq<Request>)
      requires Valid()
      reads this, server, server.bgClock
    {
      && server.Abs() == Partly(s, push, rs)
      && forall d :: To(sent, d) == To(was, d) + Answers(s, d, KeysFor(rs, d))
    }

    method AnswerNext(ghost s: S.Server, ghost was: seq<(int, Msg)>, rs: seq<Request>, i: nat)
      requires Valid() && i < |rs| && Answered(s, was, rs[..i]) && rs[i].bg in server.bgVersion
      modifies this`sent, server`storage, server`ids, server`subs
      ensures Valid() && Answered(s, was, rs[..i + 1])
    {
      hide S.Server.Create, Partly, Answers, KeysFor, Pending, Versions, Cells, NotAt;
      ghost var r, mid := rs[i], sent;
      assert rs[..i + 1] == rs[..i] + [r];
      PartlyNext(s, push, rs[..i], r);
      CreateMore(Partly(s, push, rs[..i]), {r.key}, r.key);
      Answer(rs[i].bg, rs[i].key);
      forall d ensures To(sent, d) == To(was, d) + Answers(s, d, KeysFor(rs[..i + 1], d)) {
        AnswersNext(s, Partly(s, push, rs[..i]), rs[..i], r, d);
      }
    }

    /** GetFulfilledRowRequests, and an answer to each. */
    method AnswerFulfilled()
      requires Valid()
      modifies this`sent, server`requests, server`storage, server`ids, server`subs
      ensures Valid() && server.Abs() == old(server.Abs()).Fulfil(push)
      ensures forall d :: To(sent, d) == To(old(sent), d) + Wires(old(server.Abs()).RepliesTo(d))
    {
      hide S.Server.Create, Partly, Answers, KeysFor, Pending, Versions, Cells, NotAt;
      ghost var s, was := server.Abs(), sent;
      var rs := server.GetFulfilledRowRequests();
      NoneAnswered(s, push);
      var i := 0;
      while i < |rs|
        invariant i <= |rs| && Valid() && Answered(s, was, rs[..i])
        invariant forall j :: 0 <= j < |rs| ==> rs[j].bg in server.bgVersion
      {
        AnswerNext(s, was, rs, i);
        i := i + 1;
      }
      assert rs[..i] == rs;
      AllReleased(s, push, rs);
      forall d ensures Answers(s, d, KeysFor(rs, d)) == Wires(s.RepliesTo(d)) {
        RepliesAre(s, d);
      }
    }

    method PushTo(c: int)
      requires Valid() && c in server.bgVersion
      modifies this`sent
      ensures forall d :: To(sent, d) == To(old(sent), d) + if d == c then [Wire(server.Abs().PushTo(c))] else []
    {
      hide Pending, Versions, Cells;
      var rows := server.DueRows(c);
      var version := server.GetBgVersion(c);
      var clock := server.GetMinClock();
      PushIs(server.Abs(), c, rows);
      ToMore(sent, c, PushRows(clock, version, rows));
      sent := sent + [(c, PushRows(clock, version, rows))];
    }

    /** Every client is sent the dirty rows that it subscribed to; then those rows are clean. */
    method ServerPushRow()
      requires Valid()
      modifies this`sent, server`dirty
      ensures Valid() && server.Abs() == old(server.Abs()).Cleaned()
      ensures forall d :: d in server.bgs ==> To(sent, d) == To(old(sent), d) + [Wire(old(server.Abs()).PushTo(d))]
    {
      hide Pending, Versions, Cells, Wire;
      ghost var was := sent;
      var i := 0;
      while i < |server.bgs|
        invariant i <= |server.bgs| && Valid() && server.Abs() == old(server.Abs())
        invariant forall j :: 0 <= j < |server.bgs| ==>
          To(sent, server.bgs[j])
            == To(was, server.bgs[j]) + if j < i then [Wire(old(server.Abs()).PushTo(server.bgs[j]))] else []
      {
        PushTo(server.bgs[i]);
        i := i + 1;
      }
      server.ResetDirty();
    }

    /** Apply first, then clock. */
    method ApplyThenClock(c: int, isClock: bool, version: int, bgClock: int, data: bytes, ghost given: map<Key,
                          set<nat>>)
      returns (clockChanged: bool)
      requires Valid() && c in server.bgVersion && version == server.bgVersion[c] + 1 && DataOk(server.infos, data)
      modifies server, server.bgClock
      ensures Valid()
      ensures server.Abs()
           == old(server.Abs()).Clocked(c, isClock, bgClock, BatchOf(server.val, server.infos, data, given))
      ensures clockChanged <==> server.Abs().vc.min != old(server.Abs()).vc.min
    {
      hide Pending, Versions, Cells, S.Server.Apply, BatchOf, DataOk;
      ApplyKeeps(server.Abs(), c, BatchOf(server.val, server.infos, data, given));
      server.ApplyOpLogUpdateVersion(data, c, version, given);
      clockChanged := false;
      if isClock {
        clockChanged := server.ClockUntil(c, bgClock);
      }
    }

    /** If the minimum moved: answers to those who waited for it, and the push. */
    method React(clockChanged: bool)
      requires Valid()
      modifies this`sent, server`requests, server`storage, server`ids, server`subs, server`dirty
      ensures Valid()
      ensures var s := old(server.Abs());
        && server.Abs() == (if !clockChanged then s else if push then s.Fulfil(push).Cleaned() else s.Fulfil(push))
        && forall d :: d in server.bgs ==>
             To(sent, d) == To(old(sent), d)
               + if clockChanged
                 then Wires(s.RepliesTo(d)) + if push then [Wire(s.Fulfil(push).PushTo(d))] else []
                 else []
    {
      hide Server.Valid, Pending, Versions, Cells, S.Server.Fulfil, S.Server.Cleaned, Wire, Wires, To;
      if clockChanged {
        AnswerFulfilled();
        if push {
          ServerPushRow();
        }
      }
    }

    /** What client d is sent when the minimum has moved: an answer to each of its requests that waited for the new
        minimum, in order, with the row as it is stored now; and under SSPPush then the rows that it subscribes to and
        that were dirty. */
    ghost predicate SentOnMove(d: int, was: seq<Msg>, keys: seq<Key>, dirty: set<Key>)
      reads this, server, server.bgClock
    {
      var ms, clock := To(sent, d), server.bgClock.minClock;
      && d in server.bgVersion
      && |ms| == |was| + |keys| + (if push then 1 else 0) && ms[..|was|] == was
      && (forall i :: 0 <= i < |keys| ==>
            && keys[i] in server.storage
            && ms[|was| + i] == RowReply(keys[i], clock, server.bgVersion[d], server.storage[keys[i]]))
      && (push ==>
            ms[|was| + |keys|]
              == PushRows(clock, server.bgVersion[d],
                          map key | key in dirty && (d, key) in server.subs ::
                            if key in server.storage then server.storage[key] else map[]))
    }

    method HandleOpLogMsg(c: int, isClock: bool, version: int, bgClock: int, data: bytes, ghost given: map<Key,
                          set<nat>>)
      requires Valid() && c in server.bgVersion && version == server.bgVersion[c] + 1 && DataOk(server.infos, data)
      modifies this`sent, server, server.bgClock
      ensures Valid()
      ensures var batch := BatchOf(server.val, server.infos, data, given);
        && server.Abs() == old(server.Abs()).OnOpLog(push, c, isClock, bgClock, batch)
        && forall d :: d in server.bgs ==>
             To(sent, d) == To(old(sent), d) + Wires(old(server.Abs()).OutTo(push, c, isClock, bgClock, batch, d))
      ensures forall d :: d in server.bgs ==>
        if server.bgClock.minClock == old(server.bgClock.minClock) then To(sent, d) == To(old(sent), d)
        else SentOnMove(d, To(old(sent), d), old(server.Abs()).Pend(server.bgClock.minClock, d),
                        old(server.dirty) + BatchOf(server.val, server.infos, data, given).Keys)
    {
      hide Pending, Versions, Cells, S.Server.Clocked, S.Server.Fulfil, S.Server.Cleaned, BatchOf, DataOk, Wire,
           Wires, To,
           S.Server.OutTo;
      ghost var s, batch, was := server.Abs(), BatchOf(server.val, server.infos, data, given), sent;
      var clockChanged := ApplyThenClock(c, isClock, version, bgClock, data, given);
      React(clockChanged);
      forall d | d in server.bgs
        ensures To(sent, d) == To(was, d) + Wires(s.OutTo(push, c, isClock, bgClock, batch, d))
      {
        OutIs(s, push, c, isClock, bgClock, batch, d);
      }
      forall d | d in server.bgs
        ensures if server.bgClock.minClock == s.vc.min then To(sent, d) == To(was, d)
                else SentOnMove(d, To(was, d), s.Pend(server.bgClock.minClock, d), s.dirty + batch.Keys)
      {
        SentIs(s, c, isClock, bgClock, batch, d, To(was, d));
      }
    }

    lemma SentIs(s: S.Server, c: int, isClock: bool, bgClock: int, batch: map<Key, Cell>, d: int, was: seq<Msg>)
      requires Valid() && d in server.bgs && server.Abs() == s.OnOpLog(push, c, isClock, bgClock, batch)
      requires To(sent, d) == was + Wires(s.OutTo(push, c, isClock, bgClock, batch, d))
      ensures if server.bgClock.minClock == s.vc.min then To(sent, d) == was
              else SentOnMove(d, was, s.Pend(server.bgClock.minClock, d), s.dirty + batch.Keys)
    {
      hide To, Pending, S.Server.OnOpLog, S.Server.OutTo;
      OutPlain(s, push, c, isClock, bgClock, batch, d);
      var t := server.Abs();
      assert t.Ver(d) - 1 == server.bgVersion[d];
    }
  }

  /** The abstract server's messages, spelled out. */
  lemma OutPlain(s: S.Server, push: bool, c: int, isClock: bool, bgClock: int, batch: map<Key, Cell>, d: int)
    ensures var t := s.OnOpLog(push, c, isClock, bgClock, batch);
      var ms, keys := Wires(s.OutTo(push, c, isClock, bgClock, batch, d)), s.Pend(t.vc.min, d);
      && (t.vc.min == s.vc.min ==> ms == [])
      && (t.vc.min != s.vc.min ==>
            && |ms| == |keys| + (if push then 1 else 0)
            && (forall i :: 0 <= i < |keys| ==>
                  keys[i] in t.rows && ms[i] == RowReply(keys[i], t.vc.min, t.Ver(d) - 1, t.rows[keys[i]].vals))
            && (push ==> ms[|keys|] == PushRows(t.vc.min, t.Ver(d) - 1, Due(t, s.dirty + batch.Keys, d))))
  {
    hide Wire, Wires;
    OutIs(s, push, c, isClock, bgClock, batch, d);
    var m := s.Clocked(c, isClock, bgClock, batch);
    if m.vc.min != s.vc.min {
      assert m.pending == s.pending && m.dirty == s.dirty + batch.Keys;
      RepliesPlain(m, push, d);
      if push {
        DuePlain(m, d);
      }
    }
  }

  /** The rows in `dirty` that client d subscribes to. */
  ghost function Due(s: S.Server, dirty: set<Key>, d: int): map<Key, Row> {
    map key | key in dirty && (d, key) in s.subs :: s.RowAt(key).vals
  }

  lemma RepliesPlain(m: S.Server, push: bool, d: int)
    ensures var t, ms, keys := m.Fulfil(push), Wires(m.RepliesTo(d)), m.Pend(m.vc.min, d);
      && t.vc == m.vc && t.ver == m.ver && |ms| == |keys|
      && forall i :: 0 <= i < |keys| ==>
           keys[i] in t.rows && ms[i] == RowReply(keys[i], t.vc.min, t.Ver(d) - 1, t.rows[keys[i]].vals)
  {
    var keys := m.Pend(m.vc.min, d);
    forall i | 0 <= i < |keys| ensures keys[i] in m.Fulfil(push).rows {
      ReadyIs(m, d, keys[i]);
      assert (d, keys[i]) in m.Ready();
    }
  }

  lemma DuePlain(m: S.Server, d: int)
    ensures Wire(m.Fulfil(true).PushTo(d))
         == PushRows(m.vc.min, m.Ver(d) - 1, Due(m.Fulfil(true).Cleaned(), m.dirty, d))
  {
    PushIs(m.Fulfil(true), d, Due(m.Fulfil(true).Cleaned(), m.dirty, d));
  }

  lemma ApplyKeeps(s: S.Server, c: int, batch: map<Key, Cell>)
    ensures s.Apply(c, batch).vc == s.vc
  {
  }

  lemma PushIs(s: S.Server, c: int, rows: map<Key, Row>)
    requires rows.Keys == set k | k in s.dirty && (c, k) in s.subs
    requires forall k :: k in rows ==> rows[k] == s.RowAt(k).vals
    ensures Wire(s.PushTo(c)) == PushRows(s.vc.min, s.Ver(c) - 1, rows)
  {
  }

  /** The replies and then the push, if there is one. */
  lemma OutIs(s: S.Server, push: bool, c: int, isClock: bool, bgClock: int, batch: map<Key, Cell>, d: int)
    ensures var t := s.Clocked(c, isClock, bgClock, batch);
      Wires(s.OutTo(push, c, isClock, bgClock, batch, d))
        == if t.vc.min == s.vc.min then []
           else Wires(t.RepliesTo(d)) + if push then [Wire(t.Fulfil(push).PushTo(d))] else []
  {
  }

  lemma RepliesAre(s: S.Server, c: int)
    ensures Answers(s, c, s.Pend(s.vc.min, c)) == Wires(s.RepliesTo(c))
  {
  }

  lemma NoneAnswered(s: S.Server, push: bool)
    ensures Partly(s, push, []) == s.(pending := NotAt(s.pending, s.vc.min))
    ensures forall d :: Answers(s, d, KeysFor([], d)) == []
  {
    assert Seconds({}) == {} && s.Create({}).rows == s.rows && s.subs + {} == s.subs;
  }

  lemma AnswersNext(s: S.Server, t: S.Server, rs: seq<Request>, r: Request, d: int)
    requires t.vc == s.vc && t.ver == s.ver && t.RowAt(r.key) == s.RowAt(r.key)
    ensures Answers(s, d, KeysFor(rs + [r], d))
         == Answers(s, d, KeysFor(rs, d)) + if d == r.bg then Answers(t, d, [r.key]) else []
  {
    assert (rs + [r])[..|rs|] == rs;
  }
}
