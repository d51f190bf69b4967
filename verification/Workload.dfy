/** How data is divided among threads, and the order in which a thread goes through its part. */
module Workloads {

  /** `global` data is shared by all clients; otherwise each client divides its own. */
  datatype Config = Config(clients: nat, threads: nat, batches: nat, numData: nat, global: bool) {

    predicate Valid() {
      clients > 0 && threads > 0 && batches > 0
    }

    /** How many threads share the data. */
    function Sharers(): nat {
      if global then clients * threads else threads
    }

    function Rank(client: nat, thread: nat): nat {
      if global then client * threads + thread else thread
    }

    function PerThread(): nat
      requires Sharers() > 0
    {
      numData / Sharers()
    }

    function Begin(client: nat, thread: nat): nat
      requires Sharers() > 0
    {
      PerThread() * Rank(client, thread)
    }

    /** The last thread takes the rest. */
    function End(client: nat, thread: nat): int
      requires Sharers() > 0
    {
      if thread == threads - 1 && (global ==> client == clients - 1) then numData
      else Begin(client, thread) + PerThread()
    }
  }

  lemma Sharing(cfg: Config)
    requires cfg.Valid()
    ensures cfg.Sharers() > 0
  {
    if cfg.global {
      assert cfg.clients * cfg.threads > 0;
    }
  }

  /** The last thread has the highest rank. */
  lemma RankIs(cfg: Config, client: nat, thread: nat)
    requires cfg.Valid() && client < cfg.clients && thread < cfg.threads
    ensures cfg.Rank(client, thread) < cfg.Sharers()
    ensures cfg.Rank(client, thread) == cfg.Sharers() - 1
        <==> thread == cfg.threads - 1 && (cfg.global ==> client == cfg.clients - 1)
  {
    if cfg.global {
      var c, n := cfg.clients, cfg.threads;
      assert c * n == (c - 1) * n + n;
      if client < c - 1 {
        assert client * n + n <= (c - 1) * n by {
          MulGrows(client + 1, c - 1, n);
        }
      }
    }
  }

  lemma MulGrows(a: nat, b: nat, n: nat)
    requires a <= b
    ensures a * n <= b * n
  {
    assert b * n == a * n + (b - a) * n;
  }

  /** The ranges tile the data: the first begins at 0, each begins where the one before ends, and the last ends with
      the data; so no two overlap and none runs over the end. */
  lemma RangesTile(cfg: Config, client: nat, thread: nat)
    requires cfg.Valid() && client < cfg.clients && thread < cfg.threads
    ensures cfg.Sharers() > 0
    ensures cfg.Rank(client, thread) == 0 ==> cfg.Begin(client, thread) == 0
    ensures cfg.Begin(client, thread) <= cfg.End(client, thread) <= cfg.numData
    ensures cfg.Rank(client, thread) == cfg.Sharers() - 1 ==> cfg.End(client, thread) == cfg.numData
    ensures forall client2: nat, thread2: nat ::
      client2 < cfg.clients && thread2 < cfg.threads && cfg.Rank(client2, thread2) == cfg.Rank(client, thread) + 1
      ==> cfg.Begin(client2, thread2) == cfg.End(client, thread)
  {
    Sharing(cfg);
    RankIs(cfg, client, thread);
    var q, n, r := cfg.PerThread(), cfg.Sharers(), cfg.Rank(client, thread);
    assert q * n <= cfg.numData;
    MulGrows(r + 1, n, q);
    assert q * (r + 1) == (r + 1) * q == q * r + q;
    forall client2: nat, thread2: nat |
      client2 < cfg.clients && thread2 < cfg.threads && cfg.Rank(client2, thread2) == r + 1
      ensures cfg.Begin(client2, thread2) == cfg.End(client, thread)
    {
      RankIs(cfg, client2, thread2);
    }
  }

  predicate Owns(cfg: Config, client: nat, thread: nat, i: int) {
    && client < cfg.clients && thread < cfg.threads && cfg.Sharers() > 0
    && cfg.Begin(client, thread) <= i < cfg.End(client, thread)
  }

  /** Every index of the data is in the range of exactly one of the threads that share the data: of exactly one thread
      of all if the data is global, and otherwise of exactly one thread of each client. */
  lemma EachIndexOnce(cfg: Config, client: nat, i: nat)
    requires cfg.Valid() && client < cfg.clients && i < cfg.numData
    ensures exists c: nat, t: nat :: Owns(cfg, c, t, i) && (cfg.global || c == client)
    ensures forall c: nat, t: nat, d: nat, u: nat ::
      Owns(cfg, c, t, i) && Owns(cfg, d, u, i) && (cfg.global || c == d) ==> c == d && t == u
  {
    Sharing(cfg);
    var c, t := Owner(cfg, client, i);
    forall c: nat, t: nat, d: nat, u: nat | Owns(cfg, c, t, i) && Owns(cfg, d, u, i) && (cfg.global || c == d)
      ensures c == d && t == u
    {
      if cfg.Rank(c, t) < cfg.Rank(d, u) {
        Before(cfg, c, t, d, u);
        assert false;
      } else if cfg.Rank(d, u) < cfg.Rank(c, t) {
        Before(cfg, d, u, c, t);
        assert false;
      } else if cfg.global {
        DivIs(cfg.Rank(c, t), cfg.threads, c, t);
        DivIs(cfg.Rank(c, t), cfg.threads, d, u);
      }
    }
  }

  /** The ranges are in the order of the ranks. */
  lemma Before(cfg: Config, c: nat, t: nat, d: nat, u: nat)
    requires cfg.Valid() && c < cfg.clients && t < cfg.threads && d < cfg.clients && u < cfg.threads
    requires cfg.Rank(c, t) < cfg.Rank(d, u)
    ensures cfg.Sharers() > 0 && cfg.End(c, t) <= cfg.Begin(d, u)
  {
    Sharing(cfg);
    RankIs(cfg, c, t);
    RankIs(cfg, d, u);
    MulNext(cfg.PerThread(), cfg.Rank(c, t), cfg.Rank(d, u));
  }

  lemma MulNext(q: nat, r: nat, s: nat)
    requires r < s
    ensures q * r + q <= q * s
  {
    assert q * s == q * (r + 1) + q * (s - r - 1);
  }

  lemma Owner(cfg: Config, client: nat, i: nat) returns (c: nat, t: nat)
    requires cfg.Valid() && client < cfg.clients && i < cfg.numData
    ensures Owns(cfg, c, t, i) && (cfg.global || c == client)
  {
    Sharing(cfg);
    var q, n := cfg.PerThread(), cfg.Sharers();
    var r := if q == 0 || n - 1 <= i / q then n - 1 else i / q;
    c, t := WithRank(cfg, client, r);
    RankIs(cfg, c, t);
    if q > 0 {
      assert i == q * (i / q) + i % q;
      MulGrows(r, i / q, q);
    }
  }

  lemma WithRank(cfg: Config, client: nat, r: nat) returns (c: nat, t: nat)
    requires cfg.Valid() && client < cfg.clients && r < cfg.Sharers()
    ensures c < cfg.clients && t < cfg.threads && cfg.Rank(c, t) == r && (cfg.global || c == client)
  {
    if cfg.global {
      c, t := r / cfg.threads, r % cfg.threads;
      assert r == cfg.threads * c + t;
      if c >= cfg.clients {
        MulGrows(cfg.clients, c, cfg.threads);
        assert false;
      }
    } else {
      c, t := client, r;
    }
  }

  /** A thread that is not the last gets the data divided by the threads that share it, rounded down, and the last one
      gets the rest, which is no less. */
  lemma RangeLength(cfg: Config, client: nat, thread: nat)
    requires cfg.Valid() && client < cfg.clients && thread < cfg.threads
    ensures var sharers := if cfg.global then cfg.clients * cfg.threads else cfg.threads;
      var isLast := thread == cfg.threads - 1 && (cfg.global ==> client == cfg.clients - 1);
      && 0 < sharers == cfg.Sharers()
      && cfg.End(client, thread) - cfg.Begin(client, thread)
           == (if isLast then cfg.numData - (sharers - 1) * (cfg.numData / sharers) else cfg.numData / sharers)
      && (isLast ==> cfg.numData / sharers <= cfg.End(client, thread) - cfg.Begin(client, thread))
  {
    Sharing(cfg);
    RankIs(cfg, client, thread);
    Remainder(cfg.numData, cfg.Sharers());
  }

  lemma Remainder(a: nat, n: nat)
    requires n > 0
    ensures (a / n) * (n - 1) == (n - 1) * (a / n) && a / n <= a - (n - 1) * (a / n)
  {
    var q := a / n;
    assert a == n * q + a % n;
    assert n * q == (n - 1) * q + q;
  }

  /** Rounded up. */
  function Ceil(a: nat, b: nat): nat
    requires b > 0
  {
    (a + b - 1) / b
  }

  lemma CeilCovers(a: nat, b: nat)
    requires b > 0
    ensures a <= Ceil(a, b) * b < a + b && (Ceil(a, b) == 0 <==> a == 0)
  {
    var q := (a + b - 1) / b;
    assert a + b - 1 == b * q + (a + b - 1) % b;
    if a > 0 && q == 0 {
      assert false;
    }
    if a == 0 {
      assert (b - 1) / b == 0;
    }
  }

  /** How often each index comes up. */
  ghost function Positions(indices: seq<int>, idx: int): (s: set<nat>) {
    set k: nat | k < |indices| && indices[k] == idx
  }

  /** Indices that go through [begin, begin + len) again and again. */
  ghost predicate GoesRound(indices: seq<int>, begin: int, len: nat)
    requires len > 0
  {
    forall k :: 0 <= k < |indices| ==> indices[k] == begin + k % len
  }

  /** Of n indices, each comes up once in every round, and once more if the last round got there. */
  lemma {:induction false} PositionsCount(indices: seq<int>, begin: int, len: nat, j: nat)
    requires j < len && GoesRound(indices, begin, len)
    ensures |Positions(indices, begin + j)| == |indices| / len + if j < |indices| % len then 1 else 0
    decreases |indices|
  {
    if indices == [] {
      assert Positions(indices, begin + j) == {};
      assert 0 / len == 0 && 0 % len == 0;
    } else {
      var n := |indices| - 1;
      PositionsCount(indices[..n], begin, len, j);
      DivNext(n, len);
      var before := Positions(indices[..n], begin + j);
      assert Positions(indices, begin + j) == if n % len == j then before + {n} else before;
    }
  }

  lemma DivNext(n: nat, len: nat)
    requires len > 0
    ensures n % len < len
    ensures if n % len == len - 1 then (n + 1) % len == 0 && (n + 1) / len == n / len + 1
            else (n + 1) % len == n % len + 1 && (n + 1) / len == n / len
  {
    var q, r := n / len, n % len;
    assert n == len * q + r;
    if r == len - 1 {
      assert n + 1 == len * (q + 1);
      DivIs(n + 1, len, q + 1, 0);
    } else {
      DivIs(n + 1, len, q, r + 1);
    }
  }

  lemma DivIs(n: nat, len: nat, q: nat, r: nat)
    requires len > 0 && n == len * q + r && r < len
    ensures n / len == q && n % len == r
  {
    var d := q - n / len;
    assert n == len * (n / len) + n % len;
    assert len * d == n % len - r by {
      assert len * d == len * q - len * (n / len);
    }
  }

  class WorkloadManager {
    const begin: nat
    const end: nat
    const batchSize: nat
    const perEpoch: nat
    var thisEpoch: nat

    ghost predicate Valid() reads this {
      begin < end && 0 < batchSize && end - begin <= perEpoch && perEpoch % batchSize == 0 && thisEpoch <= perEpoch
    }

    /** The constructor fails a check exactly if the thread gets no data. */
    constructor (cfg: Config, client: nat, thread: nat)
      requires cfg.Valid() && client < cfg.clients && thread < cfg.threads
      requires cfg.Sharers() > 0 && cfg.Begin(client, thread) < cfg.End(client, thread)
      ensures Valid() && begin == cfg.Begin(client, thread) && end == cfg.End(client, thread) && thisEpoch == 0
      ensures perEpoch == batchSize * cfg.batches && end - begin <= perEpoch < end - begin + cfg.batches
    {
      begin, end := cfg.Begin(client, thread), cfg.End(client, thread);
      var size := Ceil(cfg.End(client, thread) - cfg.Begin(client, thread), cfg.batches);
      CeilCovers(cfg.End(client, thread) - cfg.Begin(client, thread), cfg.batches);
      batchSize := size;
      perEpoch := size * cfg.batches;
      thisEpoch := 0;
      assert size * cfg.batches == size * cfg.batches + 0;
      DivIs(size * cfg.batches, size, cfg.batches, 0);
    }

    method Restart()
      requires Valid()
      modifies this
      ensures Valid() && thisEpoch == 0
    {
      thisEpoch := 0;
    }

    predicate IsEnd() reads this {
      thisEpoch == perEpoch
    }

    /** Within [begin, end), by remainder. */
    function WrapAround(idx: nat): (r: int)
      requires begin < end && begin <= idx
      ensures r == begin + (idx - begin) % (end - begin)
    {
      if idx >= end then
        WrapIs(idx - end, end - begin);
        (idx - end) % (end - begin) + begin
      else
        Small(idx - begin, end - begin);
        idx
    }

    /** The next index of the epoch. */
    method GetDataIdxAndAdvance() returns (idx: int)
      requires Valid() && !IsEnd()
      modifies this
      ensures Valid() && thisEpoch == old(thisEpoch) + 1
      ensures idx == begin + old(thisEpoch) % (end - begin) && begin <= idx < end
    {
      idx := WrapAround(thisEpoch + begin);
      thisEpoch := thisEpoch + 1;
    }

    /** The indices that are next, without advancing. */
    method GetBatchDataIdx(numData: nat) returns (result: seq<int>)
      requires Valid()
      ensures |result| == numData
      ensures forall i :: 0 <= i < numData ==> result[i] == begin + (thisEpoch + i) % (end - begin)
    {
      result := [];
      var i := 0;
      while i < numData
        invariant i <= numData && |result| == i
        invariant forall j :: 0 <= j < i ==> result[j] == begin + (thisEpoch + j) % (end - begin)
      {
        result := result + [WrapAround(thisEpoch + begin + i)];
        i := i + 1;
      }
    }

    /** An epoch: every index of the range comes up, no index comes up twice more often than another, and nothing else
        comes up. */
    method RunEpoch() returns (indices: seq<int>)
      requires Valid()
      modifies this
      ensures Valid() && IsEnd() && |indices| == perEpoch
      ensures forall k :: 0 <= k < |indices| ==> begin <= indices[k] < end
      ensures forall i: nat, j: nat :: begin <= i < end && begin <= j < end ==>
        1 <= |Positions(indices, i)| <= |Positions(indices, j)| + 1
    {
      Restart();
      indices := [];
      while !IsEnd()
        invariant Valid() && |indices| == thisEpoch && GoesRound(indices, begin, end - begin)
        invariant forall k :: 0 <= k < |indices| ==> begin <= indices[k] < end
        decreases perEpoch - thisEpoch
      {
        var idx := GetDataIdxAndAdvance();
        indices := indices + [idx];
      }
      EpochVisitsAll(begin, end - begin, indices);
    }
  }

  lemma Small(n: nat, len: nat)
    requires n < len
    ensures n % len == n
  {
  }

  lemma WrapIs(n: nat, len: nat)
    requires len > 0
    ensures (n + len) % len == n % len
  {
    assert n == len * (n / len) + n % len;
    DivIs(n + len, len, n / len + 1, n % len);
  }

  /** Going round at least once visits every index, and none twice more often than another. */
  lemma EpochVisitsAll(begin: nat, len: nat, indices: seq<int>)
    requires 0 < len <= |indices| && GoesRound(indices, begin, len)
    ensures forall i: nat, j: nat :: begin <= i < begin + len && begin <= j < begin + len ==>
      1 <= |Positions(indices, i)| <= |Positions(indices, j)| + 1
  {
    forall i: nat, j: nat | begin <= i < begin + len && begin <= j < begin + len
      ensures 1 <= |Positions(indices, i)| <= |Positions(indices, j)| + 1
    {
      PositionsCount(indices, begin, len, i - begin);
      PositionsCount(indices, begin, len, j - begin);
      OneRound(|indices|, len);
    }
  }

  lemma OneRound(n: nat, len: nat)
    requires 0 < len <= n
    ensures 1 <= n / len
  {
    assert n == len * (n / len) + n % len;
  }
}
