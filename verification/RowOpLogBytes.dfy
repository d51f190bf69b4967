/** How a row oplog is written into a message: which of its updates are counted, and which are written. */
module RowOpLogBytes {
  import opened Codec
  import opened OpLogFormat
  import opened OpLogSenders

  type Updates = seq<(int, bytes)>

  /** The updates that pass a test, in order. */
  function Kept(us: Updates, keep: bytes -> bool): (r: Updates)
    ensures |r| <= |us|
  {
    if us == [] then []
    else
      var n := |us| - 1;
      Kept(us[..n], keep) + if keep(us[n].1) then [us[n]] else []
  }

  predicate UpdatesOk(us: Updates, size: nat) {
    |us| < 0x8000_0000 && forall i :: 0 <= i < |us| ==> IsInt32(us[i].0) && |us[i].1| == size
  }

  lemma {:induction false} KeptOk(us: Updates, keep: bytes -> bool, size: nat)
    requires UpdatesOk(us, size)
    ensures UpdatesOk(Kept(us, keep), size) && forall u :: u in Kept(us, keep) <==> u in us && keep(u.1)
  {
    if us != [] {
      var n := |us| - 1;
      KeptOk(us[..n], keep, size);
      assert us == us[..n] + [us[n]];
    }
  }

  /** Each update that passes is there as often as it was given. */
  lemma {:induction false} KeptCounts(us: Updates, keep: bytes -> bool, u: (int, bytes))
    ensures multiset(Kept(us, keep))[u] == if keep(u.1) then multiset(us)[u] else 0
  {
    if us != [] {
      var n := |us| - 1;
      KeptCounts(us[..n], keep, u);
      assert us == us[..n] + [us[n]];
    }
  }

  lemma KeptNext(us: Updates, keep: bytes -> bool, i: nat)
    requires i < |us|
    ensures Kept(us[..i + 1], keep) == Kept(us[..i], keep) + if keep(us[i].1) then [us[i]] else []
  {
    assert us[..i + 1][..i] == us[..i];
  }

  lemma {:induction false} KeptPrefix(us: Updates, keep: bytes -> bool, i: nat)
    requires i <= |us|
    ensures |Kept(us[..i], keep)| <= |Kept(us, keep)|
    decreases |us| - i
  {
    if i == |us| {
      assert us[..i] == us;
    } else {
      KeptNext(us, keep, i);
      KeptPrefix(us, keep, i + 1);
    }
  }

  lemma {:induction false} ColsAppend(us: Updates, u: (int, bytes))
    requires forall i :: 0 <= i < |us| ==> IsInt32(us[i].0)
    requires IsInt32(u.0)
    ensures EncCols(us + [u]) == EncCols(us) + Enc32(u.0) && EncUpdates(us + [u]) == EncUpdates(us) + u.1
  {
    if us == [] {
      assert us + [u] == [u] && [u][1..] == [];
    } else {
      ColsAppend(us[1..], u);
      assert (us + [u])[1..] == us[1..] + [u];
    }
  }

  /** The columns and updates of some row oplog as far as they are written: both regions grow side by side. */
  ghost predicate Written(was: bytes, off: nat, count: nat, size: nat, kept: Updates, m: bytes)
    requires IsInt32(count) && UpdatesOk(kept, size)
  {
    && |m| == |was| && off + 4 + 4 * count + Times(size, count) <= |m|
    && m[..off] == was[..off]
    && m[off + 4 + 4 * count + Times(size, count)..] == was[off + 4 + 4 * count + Times(size, count)..]
    && At(m, off, Enc32(count)) && At(m, off + 4, EncCols(kept)) && At(m, off + 4 + 4 * count, EncUpdates(kept))
  }

  lemma SpliceOutside(mem: bytes, off: nat, b: bytes, lo: nat, hi: nat)
    requires lo <= off && off + |b| <= hi <= |mem|
    ensures Splice(mem, off, b)[..lo] == mem[..lo] && Splice(mem, off, b)[hi..] == mem[hi..]
  {
  }

  lemma {:induction false} TimesGrows(size: nat, a: nat, b: nat)
    requires a <= b
    ensures Times(size, a) <= Times(size, b)
  {
    if a < b {
      TimesGrows(size, a, b - 1);
    }
  }

  /** The two regions when the next column is written and its update is not. */
  ghost predicate HalfWritten(was: bytes, off: nat, count: nat, size: nat, kept: Updates, col: int, m: bytes)
    requires IsInt32(count) && UpdatesOk(kept, size) && IsInt32(col)
  {
    && |m| == |was| && off + 4 + 4 * count + Times(size, count) <= |m|
    && m[..off] == was[..off]
    && m[off + 4 + 4 * count + Times(size, count)..] == was[off + 4 + 4 * count + Times(size, count)..]
    && At(m, off, Enc32(count)) && At(m, off + 4, EncCols(kept) + Enc32(col))
    && At(m, off + 4 + 4 * count, EncUpdates(kept))
  }

  lemma ColumnNext(was: bytes, off: nat, count: nat, size: nat, kept: Updates, m: bytes, col: int)
    requires IsInt32(count) && UpdatesOk(kept, size) && Written(was, off, count, size, kept, m)
    requires |kept| < count && IsInt32(col)
    ensures off + 8 + 4 * |kept| <= |m|
    ensures HalfWritten(was, off, count, size, kept, col, Splice(m, off + 4 + 4 * |kept|, Enc32(col)))
  {
    hide At, Splice, EncCols, EncUpdates, Enc32;
    var idx, end := off + 4 + 4 * |kept|, off + 4 + 4 * count + Times(size, count);
    ColsLength(kept);
    SpliceOutside(m, idx, Enc32(col), off, end);
    SpliceKeeps(m, idx, Enc32(col), off, Enc32(count));
    SpliceKeeps(m, idx, Enc32(col), off + 4, EncCols(kept));
    SpliceKeeps(m, idx, Enc32(col), off + 4 + 4 * count, EncUpdates(kept));
    SpliceAt(m, idx, Enc32(col));
    AtJoin(Splice(m, idx, Enc32(col)), off + 4, EncCols(kept), Enc32(col));
  }

  lemma UpdateNext(was: bytes, off: nat, count: nat, size: nat, kept: Updates, m: bytes, u: (int, bytes))
    requires IsInt32(count) && UpdatesOk(kept, size) && IsInt32(u.0) && |u.1| == size
    requires HalfWritten(was, off, count, size, kept, u.0, m) && |kept| < count && |kept| + 1 < 0x8000_0000
    ensures var ups := off + 4 + 4 * count + Times(size, |kept|);
      && ups + size <= |m| && UpdatesOk(kept + [u], size)
      && Written(was, off, count, size, kept + [u], Splice(m, ups, u.1))
  {
    hide At, Splice, EncCols, EncUpdates, Enc32;
    var ups, end := off + 4 + 4 * count + Times(size, |kept|), off + 4 + 4 * count + Times(size, count);
    TimesGrows(size, |kept| + 1, count);
    UpdatesLength(kept, size);
    ColsAppend(kept, u);
    ColsLength(kept + [u]);
    SpliceOutside(m, ups, u.1, off, end);
    SpliceKeeps(m, ups, u.1, off, Enc32(count));
    SpliceKeeps(m, ups, u.1, off + 4, EncCols(kept + [u]));
    SpliceKeeps(m, ups, u.1, off + 4 + 4 * count, EncUpdates(kept));
    SpliceAt(m, ups, u.1);
    AtJoin(Splice(m, ups, u.1), off + 4 + 4 * count, EncUpdates(kept), u.1);
  }

  lemma WrittenStart(was: bytes, off: nat, count: nat, size: nat)
    requires IsInt32(count) && off + 4 + 4 * count + Times(size, count) <= |was|
    ensures Written(was, off, count, size, [], Splice(was, off, Enc32(count))) && Times(size, 0) == 0
  {
    var m := Splice(was, off, Enc32(count));
    SpliceAt(was, off, Enc32(count));
    assert m[off + 4..off + 4] == [] && m[off + 4 + 4 * count..off + 4 + 4 * count] == [];
  }

  /** When as many updates were written as were counted, the row oplog is there, whole, and nothing else changed. */
  lemma WrittenAll(was: bytes, off: nat, info: Info, kept: Updates, m: bytes)
    requires !info.dense && UpdatesOk(kept, info.updateSize) && Written(was, off, |kept|, info.updateSize, kept, m)
    ensures LogOk(info, Sparse(kept)) && off + |EncLog(info, Sparse(kept))| <= |was|
    ensures m == Splice(was, off, EncLog(info, Sparse(kept)))
  {
    ColsLength(kept);
    UpdatesLength(kept, info.updateSize);
    var log := Enc32(|kept|) + EncCols(kept) + EncUpdates(kept);
    AtJoin(m, off, Enc32(|kept|), EncCols(kept));
    AtJoin(m, off, Enc32(|kept|) + EncCols(kept), EncUpdates(kept));
    assert m == m[..off] + m[off..off + |log|] + m[off + |log|..];
  }

  /** Writes column and update of one update, each at its cursor. */
  method WriteUpdate(u: (int, bytes), mem: bytes, memIndex: nat, memOplogs: nat, ghost was: bytes, ghost off: nat,
                     ghost count: nat, ghost kept: Updates) returns (m: bytes)
    requires IsInt32(count) && UpdatesOk(kept, |u.1|) && Written(was, off, count, |u.1|, kept, mem)
    requires |kept| < count && IsInt32(u.0) && |kept| + 1 < 0x8000_0000
    requires memIndex == off + 4 + 4 * |kept| && memOplogs == off + 4 + 4 * count + Times(|u.1|, |kept|)
    ensures UpdatesOk(kept + [u], |u.1|) && Written(was, off, count, |u.1|, kept + [u], m)
    ensures memOplogs + |u.1| == off + 4 + 4 * count + Times(|u.1|, |kept + [u]|)
  {
    hide Written, HalfWritten, Splice;
    ColumnNext(was, off, count, |u.1|, kept, mem, u.0);
    m := Splice(mem, memIndex, Enc32(u.0));
    UpdateNext(was, off, count, |u.1|, kept, m, u);
    m := Splice(m, memOplogs, u.1);
  }

  /** Writes the count, and then column and update of every update that passes, with two cursors. */
  method SerializeKept(us: Updates, keep: bytes -> bool, info: Info, mem: bytes, off: nat) returns (m: bytes, size: nat)
    requires !info.dense && UpdatesOk(us, info.updateSize)
    requires off + 4 + 4 * |Kept(us, keep)| + Times(info.updateSize, |Kept(us, keep)|) <= |mem|
    ensures LogOk(info, Sparse(Kept(us, keep))) && size == |EncLog(info, Sparse(Kept(us, keep)))|
    ensures off + size <= |mem| && m == Splice(mem, off, EncLog(info, Sparse(Kept(us, keep))))
  {
    hide Written, Splice, EncLog, Times, Kept, EncCols, EncUpdates, Enc32, LogOk;
    var updateSize, count := info.updateSize, |Kept(us, keep)|;
    KeptOk(us, keep, updateSize);
    WrittenStart(mem, off, count, updateSize);
    m := Splice(mem, off, Enc32(count));
    ghost var kept: Updates := [];
    var memIndex := off + 4;
    var memOplogs := off + 4 + 4 * count;
    var i := 0;
    while i < |us|
      invariant i <= |us| && kept == Kept(us[..i], keep) && UpdatesOk(kept, updateSize)
      invariant memIndex == off + 4 + 4 * |kept| && memOplogs == off + 4 + 4 * count + Times(updateSize, |kept|)
      invariant Written(mem, off, count, updateSize, kept, m)
    {
      KeptNext(us, keep, i);
      KeptPrefix(us, keep, i + 1);
      if keep(us[i].1) {
        m := WriteUpdate(us[i], m, memIndex, memOplogs, mem, off, count, kept);
        memIndex := memIndex + 4;
        memOplogs := memOplogs + updateSize;
        kept := kept + [us[i]];
      }
      i := i + 1;
    }
    assert us[..i] == us;
    WrittenAll(mem, off, info, Kept(us, keep), m);
    LogSizeExact(info, Sparse(Kept(us, keep)));
    size := LogSize(info, Sparse(Kept(us, keep)));
  }

  // ---- The kinds of row oplog ----

  /** A dense row oplog has an update for every column. */
  function Columns(vs: seq<bytes>): (us: Updates)
    ensures |us| == |vs| && forall i :: 0 <= i < |vs| ==> us[i] == (i, vs[i])
  {
    seq(|vs|, i requires 0 <= i < |vs| => (i, vs[i]))
  }

  /** SparseRowOpLog: all updates. */
  method SerializeSparse(us: Updates, info: Info, mem: bytes, off: nat) returns (m: bytes, size: nat)
    requires !info.dense && UpdatesOk(us, info.updateSize)
    requires off + 4 + 4 * |us| + Times(info.updateSize, |us|) <= |mem|
    ensures LogOk(info, Sparse(us)) && size == |EncLog(info, Sparse(us))|
    ensures off + size <= |mem| && m == Splice(mem, off, EncLog(info, Sparse(us)))
  {
    KeepAll(us);
    m, size := SerializeKept(us, b => true, info, mem, off);
  }

  lemma {:induction false} KeepAll(us: Updates)
    ensures Kept(us, b => true) == us
  {
    if us != [] {
      KeepAll(us[..|us| - 1]);
    }
  }

  /** DenseRowOpLog: the updates that are not zero, which were counted when the size was announced. */
  method SerializeDenseAsSparse(vs: seq<bytes>, isZero: bytes -> bool, info: Info, mem: bytes, off: nat)
    returns (m: bytes, size: nat)
    requires !info.dense && UpdatesOk(Columns(vs), info.updateSize)
    requires var n := |Kept(Columns(vs), b => !isZero(b))|; off + 4 + 4 * n + Times(info.updateSize, n) <= |mem|
    ensures var log := Sparse(Kept(Columns(vs), b => !isZero(b)));
      LogOk(info, log) && size == |EncLog(info, log)| && off + size <= |mem| && m == Splice(mem, off, EncLog(info, log))
  {
    m, size := SerializeKept(Columns(vs), b => !isZero(b), info, mem, off);
  }

  /** ClearZerosAndGetNoneZeroSize of a dense row oplog. */
  method CountNonZeros(vs: seq<bytes>, isZero: bytes -> bool) returns (n: nat)
    ensures n == |Kept(Columns(vs), b => !isZero(b))|
  {
    n := 0;
    var i := 0;
    while i < |vs|
      invariant i <= |vs| && n == |Kept(Columns(vs)[..i], b => !isZero(b))|
    {
      KeptNext(Columns(vs), b => !isZero(b), i);
      if !isZero(vs[i]) {
        n := n + 1;
      }
      i := i + 1;
    }
    assert Columns(vs)[..i] == Columns(vs);
  }

  /** SparseVectorRowOpLog counts the updates that are not zero, but writes the ones that are. */
  predicate WritesWhatItCounts(us: Updates, isZero: bytes -> bool) {
    Kept(us, isZero) == Kept(us, b => !isZero(b))
  }

  /** So it is right exactly if there is no update at all. */
  lemma SparseVectorRightIff(us: Updates, isZero: bytes -> bool, size: nat)
    requires UpdatesOk(us, size)
    ensures WritesWhatItCounts(us, isZero) <==> us == []
  {
    KeptOk(us, isZero, size);
    KeptOk(us, b => !isZero(b), size);
    if us != [] {
      assert us[0] in us;
      assert us[0] in Kept(us, isZero) <==> us[0] !in Kept(us, b => !isZero(b));
    }
  }

  /** Reading back what a dense row oplog wrote gives its columns that are not zero, and only them. */
  lemma DenseReadBack(vs: seq<bytes>, isZero: bytes -> bool, info: Info, mem: bytes, off: nat)
    requires !info.dense && UpdatesOk(Columns(vs), info.updateSize)
    requires var log := Sparse(Kept(Columns(vs), b => !isZero(b)));
      LogOk(info, log) && At(mem, off, EncLog(info, log))
    ensures HasLog(info, mem, off) && ParseLog(info, mem, off).0.Sparse?
    ensures forall u: (int, bytes) ::
      u in ParseLog(info, mem, off).0.updates <==> 0 <= u.0 < |vs| && u.1 == vs[u.0] && !isZero(u.1)
  {
    LogAt(info, mem, off, Sparse(Kept(Columns(vs), b => !isZero(b))));
    KeptOk(Columns(vs), b => !isZero(b), info.updateSize);
    forall u: (int, bytes) ensures u in Columns(vs) <==> 0 <= u.0 < |vs| && u.1 == vs[u.0] {
      if 0 <= u.0 < |vs| && u.1 == vs[u.0] {
        assert Columns(vs)[u.0] == u;
      }
    }
  }
}
