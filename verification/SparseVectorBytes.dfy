/** SparseVectorRowOpLog::SerializeSparse announces the updates that are not zero and writes the ones that are. What it
    leaves in memory, and when that is the row oplog all the same. */
module SparseVectorBytes {
  import opened Codec
  import opened OpLogFormat
  import opened OpLogSenders
  import opened RowOpLogBytes

  function Zeros(us: Updates, isZero: bytes -> bool): Updates {
    Kept(us, isZero)
  }

  function Nonzeros(us: Updates, isZero: bytes -> bool): Updates {
    Kept(us, b => !isZero(b))
  }

  /** Column and update of each of `us`, both at their cursors; a later write may hit an earlier one. */
  function WriteBoth(m: bytes, idx: nat, ups: nat, us: Updates, size: nat): (r: bytes)
    requires UpdatesOk(us, size) && idx + 4 * |us| <= |m| && ups + Times(size, |us|) <= |m|
    ensures |r| == |m|
  {
    if us == [] then m
    else
      var n := |us| - 1;
      var w := WriteBoth(m, idx, ups, us[..n], size);
      Splice(Splice(w, idx + 4 * n, Enc32(us[n].0)), ups + Times(size, n), us[n].1)
  }

  /** The message has room for what is written, which may be more than was announced. */
  ghost predicate HasRoom(us: Updates, isZero: bytes -> bool, size: nat, mem: bytes, off: nat) {
    var n, k := |Nonzeros(us, isZero)|, |Zeros(us, isZero)|;
    off + 4 + 4 * k <= |mem| && off + 4 + 4 * n + Times(size, n) <= |mem| && off + 4 + 4 * n + Times(size, k) <= |mem|
  }

  /** The memory that is left. */
  ghost function Left(us: Updates, isZero: bytes -> bool, size: nat, mem: bytes, off: nat): (m: bytes)
    requires UpdatesOk(us, size) && HasRoom(us, isZero, size, mem, off)
    ensures |m| == |mem|
  {
    var ns, zs := Nonzeros(us, isZero), Zeros(us, isZero);
    KeptOk(us, isZero, size);
    WriteBoth(Splice(mem, off, Enc32(|ns|)), off + 4, off + 4 + 4 * |ns|, zs, size)
  }

  /** The size it returns is the announced one. */
  method SerializeSparseVector(us: Updates, isZero: bytes -> bool, info: Info, mem: bytes, off: nat)
    returns (m: bytes, size: nat)
    requires !info.dense && UpdatesOk(us, info.updateSize) && HasRoom(us, isZero, info.updateSize, mem, off)
    ensures m == Left(us, isZero, info.updateSize, mem, off)
    ensures LogOk(info, Sparse(Nonzeros(us, isZero))) && size == |EncLog(info, Sparse(Nonzeros(us, isZero)))|
  {
    hide WriteBoth, Splice, Kept, Times, EncLog, EncCols, EncUpdates, Enc32;
    var updateSize, numNonzeros := info.updateSize, |Nonzeros(us, isZero)|;
    KeptOk(us, isZero, updateSize);
    KeptOk(us, b => !isZero(b), updateSize);
    m := Splice(mem, off, Enc32(numNonzeros));
    ghost var start, written: Updates, zs := m, [], Zeros(us, isZero);
    var memIndex := off + 4;
    var memOplogs := off + 4 + 4 * numNonzeros;
    NoneWritten(start, memIndex, memOplogs, updateSize);
    var idx := 0;
    while idx < |us|
      invariant idx <= |us| && written == Kept(us[..idx], isZero) && |written| <= |zs|
      invariant UpdatesOk(written, updateSize) && Times(updateSize, |written|) <= Times(updateSize, |zs|)
      invariant memIndex == off + 4 + 4 * |written|
      invariant memOplogs == off + 4 + 4 * numNonzeros + Times(updateSize, |written|)
      invariant |start| == |mem| && m == WriteBoth(start, off + 4, off + 4 + 4 * numNonzeros, written, updateSize)
    {
      KeptNext(us, isZero, idx);
      KeptPrefix(us, isZero, idx + 1);
      TimesGrows(updateSize, |Kept(us[..idx + 1], isZero)|, |zs|);
      if isZero(us[idx].1) {
        OneWritten(start, off + 4, off + 4 + 4 * numNonzeros, written, us[idx], updateSize);
        m := Splice(m, memIndex, Enc32(us[idx].0));
        m := Splice(m, memOplogs, us[idx].1);
        memIndex := memIndex + 4;
        memOplogs := memOplogs + updateSize;
        written := written + [us[idx]];
      }
      idx := idx + 1;
    }
    assert us[..idx] == us;
    LogSizeExact(info, Sparse(Nonzeros(us, isZero)));
    size := 4 + 4 * numNonzeros + Times(updateSize, numNonzeros);
  }

  lemma NoneWritten(m: bytes, idx: nat, ups: nat, size: nat)
    requires idx <= |m| && ups <= |m|
    ensures Times(size, 0) == 0 && WriteBoth(m, idx, ups, [], size) == m
  {
  }

  lemma OneWritten(m: bytes, idx: nat, ups: nat, us: Updates, u: (int, bytes), size: nat)
    requires UpdatesOk(us, size) && IsInt32(u.0) && |u.1| == size && |us| + 1 < 0x8000_0000
    requires idx + 4 * (|us| + 1) <= |m| && ups + Times(size, |us| + 1) <= |m|
    ensures UpdatesOk(us + [u], size) && Times(size, |us| + 1) == Times(size, |us|) + size
    ensures WriteBoth(m, idx, ups, us + [u], size)
         == Splice(Splice(WriteBoth(m, idx, ups, us, size), idx + 4 * |us|, Enc32(u.0)), ups + Times(size, |us|), u.1)
  {
    hide Splice, Enc32;
    assert (us + [u])[..|us|] == us && (us + [u])[|us|] == u;
  }

  /** Nothing before the cursors is written. */
  lemma {:induction false} WriteKeeps(m: bytes, idx: nat, ups: nat, us: Updates, size: nat, off: nat, b: bytes)
    requires UpdatesOk(us, size) && idx + 4 * |us| <= |m| && ups + Times(size, |us|) <= |m|
    requires At(m, off, b) && off + |b| <= idx <= ups
    ensures At(WriteBoth(m, idx, ups, us, size), off, b)
  {
    hide At, Splice;
    if us != [] {
      var n := |us| - 1;
      WriteKeeps(m, idx, ups, us[..n], size, off, b);
      var w := WriteBoth(m, idx, ups, us[..n], size);
      SpliceKeeps(w, idx + 4 * n, Enc32(us[n].0), off, b);
      SpliceKeeps(Splice(w, idx + 4 * n, Enc32(us[n].0)), ups + Times(size, n), us[n].1, off, b);
    }
  }

  /** The first column stays where it is written. */
  lemma {:induction false} FirstColumn(m: bytes, idx: nat, ups: nat, us: Updates, size: nat)
    requires UpdatesOk(us, size) && idx + 4 * |us| <= |m| && ups + Times(size, |us|) <= |m|
    requires us != [] && idx + 4 <= ups
    ensures At(WriteBoth(m, idx, ups, us, size), idx, Enc32(us[0].0))
  {
    hide At, Splice;
    var n := |us| - 1;
    var w := WriteBoth(m, idx, ups, us[..n], size);
    if n == 0 {
      SpliceAt(w, idx, Enc32(us[0].0));
    } else {
      FirstColumn(m, idx, ups, us[..n], size);
      SpliceKeeps(w, idx + 4 * n, Enc32(us[n].0), idx, Enc32(us[0].0));
    }
    SpliceKeeps(Splice(w, idx + 4 * n, Enc32(us[n].0)), ups + Times(size, n), us[n].1, idx, Enc32(us[0].0));
  }

  predicate DistinctColumns(us: Updates) {
    forall i, j :: 0 <= i < j < |us| ==> us[i].0 != us[j].0
  }

  lemma {:induction false} NoZeros(us: Updates, isZero: bytes -> bool)
    requires Zeros(us, isZero) == []
    ensures Nonzeros(us, isZero) == us
  {
    if us != [] {
      NoZeros(us[..|us| - 1], isZero);
      assert us == us[..|us| - 1] + [us[|us| - 1]];
    }
  }

  /** A server finds the row oplog in the message exactly if there was nothing to write, or no update is zero and the
      memory happened to hold the columns and the updates before. */
  lemma SparseVectorReadsIff(us: Updates, isZero: bytes -> bool, info: Info, mem: bytes, off: nat)
    requires !info.dense && UpdatesOk(us, info.updateSize) && DistinctColumns(us)
    requires HasRoom(us, isZero, info.updateSize, mem, off)
    ensures LogOk(info, Sparse(Nonzeros(us, isZero)))
    ensures At(Left(us, isZero, info.updateSize, mem, off), off, EncLog(info, Sparse(Nonzeros(us, isZero)))) <==>
              Nonzeros(us, isZero) == []
              || (Zeros(us, isZero) == [] && At(mem, off + 4, EncCols(us) + EncUpdates(us)))
  {
    hide Kept, WriteBoth, At, Splice, EncCols, EncUpdates, Enc32, DistinctColumns;
    KeptOk(us, isZero, info.updateSize);
    KeptOk(us, b => !isZero(b), info.updateSize);
    var ns, zs, size := Nonzeros(us, isZero), Zeros(us, isZero), info.updateSize;
    var start := Splice(mem, off, Enc32(|ns|));
    if ns == [] {
      SpliceAt(mem, off, Enc32(0));
      WriteKeeps(start, off + 4, off + 4, zs, size, off, Enc32(0));
      EmptyLog(info);
    } else if zs == [] {
      NoZeros(us, isZero);
      NoneWritten(start, off + 4, off + 4 + 4 * |ns|, size);
      CountThen(mem, off, us, info);
    } else {
      FirstColumn(start, off + 4, off + 4 + 4 * |ns|, zs, size);
      OtherColumn(us, isZero, size);
      OtherFirst(Left(us, isZero, size, mem, off), off, ns, zs[0], info);
    }
  }

  lemma EmptyLog(info: Info)
    requires !info.dense
    ensures LogOk(info, Sparse([])) && EncLog(info, Sparse([])) == Enc32(0)
  {
  }

  lemma OtherColumn(us: Updates, isZero: bytes -> bool, size: nat)
    requires UpdatesOk(us, size) && DistinctColumns(us) && Nonzeros(us, isZero) != [] && Zeros(us, isZero) != []
    ensures Nonzeros(us, isZero)[0].0 != Zeros(us, isZero)[0].0
  {
    hide Kept;
    KeptOk(us, isZero, size);
    KeptOk(us, b => !isZero(b), size);
    var n, z := Nonzeros(us, isZero)[0], Zeros(us, isZero)[0];
    assert n in us && z in us && n != z;
  }

  lemma TailKept(mem: bytes, off: nat, b: bytes, rest: bytes)
    requires off + |b| <= |mem|
    ensures At(Splice(mem, off, b), off + |b|, rest) <==> At(mem, off + |b|, rest)
  {
    var m, at := Splice(mem, off, b), off + |b|;
    assert m[at..] == mem[at..];
    if at + |rest| <= |mem| {
      assert m[at..at + |rest|] == m[at..][..|rest|] && mem[at..at + |rest|] == mem[at..][..|rest|];
    }
  }

  /** With the count written, the row oplog is there if and only if the rest of it was. */
  lemma CountThen(mem: bytes, off: nat, us: Updates, info: Info)
    requires LogOk(info, Sparse(us)) && off + 4 <= |mem|
    ensures At(Splice(mem, off, Enc32(|us|)), off, EncLog(info, Sparse(us)))
       <==> At(mem, off + 4, EncCols(us) + EncUpdates(us))
  {
    hide At, Splice, EncCols, EncUpdates, Enc32;
    var count, rest := Enc32(|us|), EncCols(us) + EncUpdates(us);
    assert EncLog(info, Sparse(us)) == count + rest;
    SpliceAt(mem, off, count);
    TailKept(mem, off, count, rest);
    if At(Splice(mem, off, count), off, count + rest) {
      AtSplit(Splice(mem, off, count), off, count, rest);
    }
    if At(Splice(mem, off, count), off + 4, rest) {
      AtJoin(Splice(mem, off, count), off, count, rest);
    }
  }

  lemma OtherFirst(m: bytes, off: nat, ns: Updates, z: (int, bytes), info: Info)
    requires LogOk(info, Sparse(ns)) && ns != [] && IsInt32(z.0) && ns[0].0 != z.0
    requires At(m, off + 4, Enc32(z.0))
    ensures !At(m, off, EncLog(info, Sparse(ns)))
  {
    hide EncUpdates, Enc32;
    DecEnc32(ns[0].0);
    DecEnc32(z.0);
    if At(m, off, EncLog(info, Sparse(ns))) {
      AtSplit(m, off, Enc32(|ns|) + EncCols(ns), EncUpdates(ns));
      AtSplit(m, off, Enc32(|ns|), EncCols(ns));
      AtSplit(m, off + 4, Enc32(ns[0].0), EncCols(ns[1..]));
    }
  }

  /** One update of 1 in column 0, in memory that is all zeros: the server reads an update of 0. */
  lemma SparseVectorLosesUpdate()
    ensures var us: Updates, isZero := [(0, [1])], (b: bytes) => b == [0];
      var info, mem := Info(false, 1, 1), [0, 0, 0, 0, 0, 0, 0, 0, 0];
      && UpdatesOk(us, 1) && HasRoom(us, isZero, 1, mem, 0)
      && var m := Left(us, isZero, 1, mem, 0);
         HasLog(info, m, 0) && ParseLog(info, m, 0).0 == Sparse([(0, [0])])
  {
    var us: Updates, isZero := [(0, [1])], (b: bytes) => b == [0];
    var info, mem := Info(false, 1, 1), [0, 0, 0, 0, 0, 0, 0, 0, 0];
    OneNonzero();
    ReadsZero();
    var read := Sparse([(0, [0])]);
    hide Kept, WriteBoth, HasLog, ParseLog, EncLog;
    NoneWritten(Splice(mem, 0, Enc32(1)), 4, 8, 1);
    assert Left(us, isZero, 1, mem, 0) == Splice(mem, 0, Enc32(1));
    LogAt(info, Splice(mem, 0, Enc32(1)), 0, read);
  }

  lemma OneNonzero()
    ensures var us: Updates, isZero := [(0, [1])], (b: bytes) => b == [0];
      Zeros(us, isZero) == [] && Nonzeros(us, isZero) == us && Times(1, 1) == 1 && Times(1, 0) == 0
  {
    var us: Updates, isZero := [(0, [1])], (b: bytes) => b == [0];
    assert us[..0] == [];
    assert Kept([], isZero) == [] && Kept([], b => !isZero(b)) == [];
  }

  lemma ReadsZero()
    ensures var read, mem := Sparse([(0, [0])]), [0, 0, 0, 0, 0, 0, 0, 0, 0];
      LogOk(Info(false, 1, 1), read) && At(Splice(mem, 0, Enc32(1)), 0, EncLog(Info(false, 1, 1), read))
  {
    var us, mem: bytes := [(0, [0])], [0, 0, 0, 0, 0, 0, 0, 0, 0];
    assert EncCols(us) == Enc32(0) && EncUpdates(us) == [0] by {
      assert us[1..] == [] && EncCols([]) == [] && EncUpdates([]) == [];
      assert EncCols(us) == Enc32(0) + [] && EncUpdates(us) == [0] + [];
    }
    hide EncCols, EncUpdates;
    assert Enc32(1) == [1, 0, 0, 0] && Enc32(0) == [0, 0, 0, 0];
    hide Enc32;
    assert Splice(mem, 0, Enc32(1)) == [1, 0, 0, 0] + [0, 0, 0, 0, 0];
  }
}
