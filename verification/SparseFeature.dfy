/** A sparse feature vector: an array of entries sorted by feature id, against the total function it stands for. */
module SparseFeatures {

  type Entry = (int, int)

  const K_BLOCK_SIZE := 32
  const K_NUM_LINEAR_SEARCH := 20

  predicate Ascending(s: seq<Entry>) {
    forall i, j :: 0 <= i < j < |s| ==> s[i].0 < s[j].0
  }

  /** The value of a feature: that of its entry, or zero. */
  function At(s: seq<Entry>, id: int): int {
    if s == [] then 0 else if s[0].0 == id then s[0].1 else At(s[1..], id)
  }

  predicate HasId(s: seq<Entry>, id: int) {
    exists i :: 0 <= i < |s| && s[i].0 == id
  }

  lemma {:induction false} AtEntry(s: seq<Entry>, i: nat)
    requires Ascending(s) && i < |s|
    ensures At(s, s[i].0) == s[i].1
  {
    if i > 0 {
      assert s[1..][i - 1] == s[i];
      AtEntry(s[1..], i - 1);
    }
  }

  lemma {:induction false} AtAbsent(s: seq<Entry>, id: int)
    requires !HasId(s, id)
    ensures At(s, id) == 0
  {
    if s != [] {
      assert s[0].0 != id;
      forall i | 0 <= i < |s[1..]| ensures s[1..][i].0 != id {
        assert s[1..][i] == s[i + 1];
      }
      AtAbsent(s[1..], id);
    }
  }

  /** Two ascending sequences with the same entries, except perhaps that of `id`, agree everywhere else. */
  lemma AtSame(s: seq<Entry>, t: seq<Entry>, id: int)
    requires Ascending(s) && Ascending(t)
    requires forall e: Entry :: e.0 != id ==> (e in s <==> e in t)
    ensures forall j :: j != id ==> At(s, j) == At(t, j)
  {
    forall j | j != id ensures At(s, j) == At(t, j) {
      if HasId(s, j) {
        var i :| 0 <= i < |s| && s[i].0 == j;
        AtEntry(s, i);
        assert s[i] in t;
        var k :| 0 <= k < |t| && t[k] == s[i];
        AtEntry(t, k);
      } else {
        AtAbsent(s, j);
        AtAbsent(t, j);
      }
    }
  }

  class SparseFeature {
    var entries: array<Entry>
    var numEntries: nat

    ghost predicate Valid()
      reads this, entries
    {
      numEntries <= entries.Length < numEntries + 2 * K_BLOCK_SIZE && Ascending(entries[..numEntries])
    }

    ghost function Stored(): seq<Entry>
      reads this, entries
      requires numEntries <= entries.Length
    {
      entries[..numEntries]
    }

    /** No memory until the first entry. */
    constructor ()
      ensures Valid() && fresh(entries) && Stored() == []
    {
      entries, numEntries := new Entry[0], 0;
    }

    /** The lists must be of one length, and the ids ascend from 0 and stay below the dimension; else a check fails. */
    constructor FromLists(ids: seq<int>, vals: seq<int>, dim: int)
      requires |ids| == |vals| && (forall i :: 0 <= i < |ids| ==> 0 <= ids[i] < dim)
      requires forall i, j :: 0 <= i < j < |ids| ==> ids[i] < ids[j]
      ensures Valid() && fresh(entries) && |Stored()| == |ids|
      ensures forall i :: 0 <= i < |ids| ==> Stored()[i] == (ids[i], vals[i])
    {
      entries := new Entry[|ids|](i requires 0 <= i < |ids| => (ids[i], vals[i]));
      numEntries := |ids|;
    }

    /** Searches [lower, upper): by halves, and the rest from left to right. */
    method BinarySearch(key: int, lower: nat, upper: nat) returns (r: int)
      requires Valid() && lower <= upper <= numEntries
      ensures r == -1 || (lower <= r < upper && entries[r].0 == key)
      ensures r == -1 ==> forall i :: lower <= i < upper ==> entries[i].0 != key
      decreases upper - lower
    {
      if upper - lower < K_NUM_LINEAR_SEARCH {
        var i := lower;
        while i < upper
          invariant lower <= i <= upper
          invariant forall j :: lower <= j < i ==> entries[j].0 != key
        {
          if entries[i].0 == key {
            return i;
          }
          i := i + 1;
        }
        return -1;
      }
      var mid := (lower + upper) / 2;
      ghost var s := Stored();
      assert forall i :: 0 <= i < numEntries ==> entries[i] == s[i];
      if key < entries[mid].0 {
        r := BinarySearch(key, lower, mid);
      } else {
        r := BinarySearch(key, mid, upper);
      }
    }

    method FindIndex(id: int) returns (r: int)
      requires Valid()
      ensures r == -1 <==> !HasId(Stored(), id)
      ensures r == -1 || (0 <= r < numEntries && Stored()[r].0 == id)
    {
      r := BinarySearch(id, 0, numEntries);
      ghost var s := Stored();
      assert forall i :: 0 <= i < numEntries ==> entries[i] == s[i];
    }

    /** The value of a feature; zero if it has no entry. */
    method Value(id: int) returns (v: int)
      requires Valid()
      ensures v == At(Stored(), id)
    {
      var r := FindIndex(id);
      if r == -1 {
        AtAbsent(Stored(), id);
        return 0;
      }
      AtEntry(Stored(), r);
      v := entries[r].1;
    }

    /** New memory, a whole number of blocks. */
    method ResetCapacity(newCapacity: nat)
      requires numEntries <= newCapacity && numEntries <= entries.Length
      modifies this`entries
      ensures fresh(entries) && numEntries <= entries.Length && Stored() == old(Stored())
      ensures entries.Length % K_BLOCK_SIZE == 0 && newCapacity <= entries.Length < newCapacity + K_BLOCK_SIZE
    {
      var remainder := newCapacity % K_BLOCK_SIZE;
      var capacity := newCapacity;
      if remainder != 0 {
        capacity := capacity + (K_BLOCK_SIZE - remainder);
      }
      var old_, n := entries, numEntries;
      entries := new Entry[capacity](i requires 0 <= i < capacity reads old_ =>
        if i < n && i < old_.Length then old_[i] else (0, 0));
      assert entries[..numEntries] == old(entries[..numEntries]);
    }

    /** Drops an entry, shifts the rest forward, and shrinks the memory if two blocks of it are unused. */
    method RemoveOneEntryAndCompact(idx: nat)
      requires Valid() && idx < numEntries
      modifies this, entries
      ensures Valid() && (entries == old(entries) || fresh(entries))
      ensures Stored() == old(Stored())[..idx] + old(Stored())[idx + 1..]
    {
      ghost var s := Stored();
      forall i | idx <= i < numEntries - 1 {
        entries[i] := entries[i + 1];
      }
      numEntries := numEntries - 1;
      assert Stored() == s[..idx] + s[idx + 1..];
      AscendingWithout(s, idx);
      if entries.Length - numEntries >= 2 * K_BLOCK_SIZE {
        ResetCapacity(numEntries);
      }
    }

    /** Takes an entry out and puts it back at `dest`; the entries between shift by one. */
    method MoveEntry(idx: nat, dest: nat)
      requires numEntries <= entries.Length && idx < numEntries && dest < numEntries
      modifies entries
      ensures Stored() == Moved(old(Stored()), idx, dest)
    {
      hide Moved;
      ghost var s := Stored();
      assert forall i :: 0 <= i < numEntries ==> entries[i] == s[i];
      var tmp := entries[idx];
      if idx < dest {
        forall i | idx <= i < dest {
          entries[i] := entries[i + 1];
        }
        assert forall i :: 0 <= i < numEntries ==> entries[i] == if idx <= i < dest then s[i + 1] else s[i];
      } else {
        forall i | dest < i <= idx {
          entries[i] := entries[i - 1];
        }
        assert forall i :: 0 <= i < numEntries ==> entries[i] == if dest < i <= idx then s[i - 1] else s[i];
      }
      entries[dest] := tmp;
      ghost var t := Moved(s, idx, dest);
      forall i | 0 <= i < numEntries ensures entries[i] == t[i] {
        MovedAt(s, idx, dest, i);
      }
      assert Stored() == t;
    }

    /** Moves one entry to where its id belongs, to the right or to the left. */
    method OneSidedBubbleSort(idx: nat, forward: bool) returns (ghost newIdx: nat)
      requires numEntries <= entries.Length && idx < numEntries
      modifies entries
      ensures newIdx < numEntries && (if forward then idx <= newIdx else newIdx <= idx)
      ensures Stored() == Moved(old(Stored()), idx, newIdx)
      ensures forward ==>
        && (forall i :: idx < i <= newIdx ==> old(Stored())[i].0 < old(Stored())[idx].0)
        && (newIdx + 1 < numEntries ==> old(Stored())[idx].0 <= old(Stored())[newIdx + 1].0)
      ensures !forward ==>
        && (forall i :: newIdx <= i < idx ==> old(Stored())[idx].0 < old(Stored())[i].0)
        && (newIdx > 0 ==> old(Stored())[newIdx - 1].0 <= old(Stored())[idx].0)
    {
      hide Moved;
      ghost var s := Stored();
      assert forall i :: 0 <= i < numEntries ==> entries[i] == s[i];
      var dest := idx;
      if forward {
        while dest + 1 < numEntries && entries[dest + 1].0 < entries[idx].0
          invariant idx <= dest < numEntries
          invariant forall i :: idx < i <= dest ==> entries[i].0 < entries[idx].0
        {
          dest := dest + 1;
        }
      } else {
        while dest > 0 && entries[idx].0 < entries[dest - 1].0
          invariant 0 <= dest <= idx
          invariant forall i :: dest <= i < idx ==> entries[idx].0 < entries[i].0
        {
          dest := dest - 1;
        }
      }
      newIdx := dest;
      MoveEntry(idx, dest);
    }

    /** Sets one feature and no other. */
    method SetFeatureVal(id: int, val: int)
      requires Valid()
      modifies this, entries
      ensures Valid() && (entries == old(entries) || fresh(entries))
      ensures forall j :: At(Stored(), j) == if j == id then val else At(old(Stored()), j)
      ensures forall j ::
        HasId(Stored(), j) <==> if j == id then val != 0 || !HasId(old(Stored()), id) else HasId(old(Stored()), j)
    {
      var idx := FindIndex(id);
      ghost var s := Stored();
      if idx != -1 {
        if val == 0 {
          RemoveOneEntryAndCompact(idx);
          Removed(s, idx);
          return;
        }
        entries[idx] := (entries[idx].0, val);
        assert Stored() == s[idx := (id, val)];
        Replaced(s, idx, val);
        return;
      }
      if numEntries == entries.Length {
        ResetCapacity(entries.Length + K_BLOCK_SIZE);
      }
      entries[numEntries] := (id, val);
      numEntries := numEntries + 1;
      assert Stored() == s + [(id, val)];
      ghost var dest := OneSidedBubbleSort(numEntries - 1, false);
      Inserted(s, id, val, dest);
    }
  }

  /** Entry `at` moved to position `dest`, and the entries between shifted by one. */
  function Moved(s: seq<Entry>, at: nat, dest: nat): (t: seq<Entry>)
    requires at < |s| && dest < |s|
    ensures |t| == |s|
  {
    var rest := s[..at] + s[at + 1..];
    rest[..dest] + [s[at]] + rest[dest..]
  }

  lemma MovedAt(s: seq<Entry>, at: nat, dest: nat, i: nat)
    requires at < |s| && dest < |s| && i < |s|
    ensures Moved(s, at, dest)[i]
         == if i == dest then s[at] else if at <= i < dest then s[i + 1] else if dest < i <= at then s[i - 1] else s[i]
  {
    var rest := s[..at] + s[at + 1..];
    assert forall k :: 0 <= k < |rest| ==> rest[k] == if k < at then s[k] else s[k + 1];
    var t := Moved(s, at, dest);
    assert t[i] == if i < dest then rest[i] else if i == dest then s[at] else rest[i - 1];
  }

  lemma AscendingWithout(s: seq<Entry>, idx: nat)
    requires Ascending(s) && idx < |s|
    ensures Ascending(s[..idx] + s[idx + 1..])
  {
  }

  lemma Removed(s: seq<Entry>, idx: nat)
    requires Ascending(s) && idx < |s|
    ensures var t := s[..idx] + s[idx + 1..];
      && (forall j :: At(t, j) == if j == s[idx].0 then 0 else At(s, j))
      && (forall j :: HasId(t, j) <==> j != s[idx].0 && HasId(s, j))
  {
    hide At;
    var t, id := s[..idx] + s[idx + 1..], s[idx].0;
    AscendingWithout(s, idx);
    RemovedIds(s, idx);
    hide HasId, Ascending;
    AtSame(s, t, id);
    AtAbsent(t, id);
  }

  lemma RemovedIds(s: seq<Entry>, idx: nat)
    requires Ascending(s) && idx < |s|
    ensures var t := s[..idx] + s[idx + 1..];
      && (forall j :: HasId(t, j) <==> j != s[idx].0 && HasId(s, j))
      && (forall e: Entry :: e.0 != s[idx].0 ==> (e in s <==> e in t))
  {
    var t, id := s[..idx] + s[idx + 1..], s[idx].0;
    forall j ensures HasId(t, j) <==> j != id && HasId(s, j) {
      if j != id && HasId(s, j) {
        var i :| 0 <= i < |s| && s[i].0 == j;
        assert t[if i < idx then i else i - 1] == s[i];
      }
      if HasId(t, j) {
        var i :| 0 <= i < |t| && t[i].0 == j;
        assert s[if i < idx then i else i + 1] == t[i];
      }
    }
    forall e: Entry | e.0 != id && e in s ensures e in t {
      var i :| 0 <= i < |s| && s[i] == e;
      assert t[if i < idx then i else i - 1] == e;
    }
  }

  lemma Replaced(s: seq<Entry>, idx: nat, val: int)
    requires Ascending(s) && idx < |s|
    ensures var t := s[idx := (s[idx].0, val)];
      && Ascending(t) && (forall j :: At(t, j) == if j == s[idx].0 then val else At(s, j))
      && (forall j :: HasId(t, j) <==> HasId(s, j))
  {
    var t, id := s[idx := (s[idx].0, val)], s[idx].0;
    forall j ensures HasId(t, j) <==> HasId(s, j) {
      if HasId(s, j) {
        var i :| 0 <= i < |s| && s[i].0 == j;
        assert t[i].0 == j;
      }
      if HasId(t, j) {
        var i :| 0 <= i < |t| && t[i].0 == j;
        assert s[i].0 == j;
      }
    }
    forall e: Entry | e.0 != id ensures e in s <==> e in t {
      if e in s {
        var i :| 0 <= i < |s| && s[i] == e;
        assert t[i] == e;
      }
      if e in t {
        var i :| 0 <= i < |t| && t[i] == e;
        assert s[i] == e;
      }
    }
    AtSame(s, t, id);
    AtEntry(t, idx);
  }

  lemma InsertedOrder(s: seq<Entry>, id: int, val: int, dest: nat)
    requires Ascending(s) && !HasId(s, id) && dest <= |s|
    requires (forall i :: dest <= i < |s| ==> id < s[i].0) && (dest > 0 ==> s[dest - 1].0 <= id)
    ensures Ascending(s[..dest] + [(id, val)] + s[dest..])
  {
    assert dest > 0 ==> s[dest - 1].0 != id;
  }

  lemma Inserted(s: seq<Entry>, id: int, val: int, dest: nat)
    requires Ascending(s) && !HasId(s, id) && dest <= |s|
    requires (forall i :: dest <= i < |s| ==> id < s[i].0) && (dest > 0 ==> s[dest - 1].0 <= id)
    ensures var t := Moved(s + [(id, val)], |s|, dest);
      && Ascending(t) && (forall j :: At(t, j) == if j == id then val else At(s, j))
      && (forall j :: HasId(t, j) <==> j == id || HasId(s, j))
  {
    hide At, HasId, Ascending, Moved;
    var t := s[..dest] + [(id, val)] + s[dest..];
    MovedLast(s, (id, val), dest);
    InsertedOrder(s, id, val, dest);
    InsertedIds(s, id, val, dest);
    AtSame(s, t, id);
    assert t[dest] == (id, val);
    AtEntry(t, dest);
  }

  lemma MovedLast(s: seq<Entry>, e: Entry, dest: nat)
    requires dest <= |s|
    ensures Moved(s + [e], |s|, dest) == s[..dest] + [e] + s[dest..]
  {
    assert (s + [e])[..|s|] == s && (s + [e])[|s| + 1..] == [];
    assert s + [] == s;
  }

  lemma InsertedIds(s: seq<Entry>, id: int, val: int, dest: nat)
    requires dest <= |s| && !HasId(s, id)
    ensures var t := s[..dest] + [(id, val)] + s[dest..];
      && (forall j :: HasId(t, j) <==> j == id || HasId(s, j))
      && (forall e: Entry :: e.0 != id ==> (e in s <==> e in t))
  {
    var t := s[..dest] + [(id, val)] + s[dest..];
    assert t[dest] == (id, val);
    forall j ensures HasId(t, j) <==> j == id || HasId(s, j) {
      if HasId(s, j) {
        var i :| 0 <= i < |s| && s[i].0 == j;
        assert t[if i < dest then i else i + 1] == s[i];
      }
      if j != id && HasId(t, j) {
        var i :| 0 <= i < |t| && t[i].0 == j;
        assert s[if i < dest then i else i - 1] == t[i];
      }
    }
  }

  /** Every entry has a value that is not zero, as the number of entries is documented to count. */
  ghost predicate NoZeros(s: seq<Entry>) {
    forall j :: HasId(s, j) ==> At(s, j) != 0
  }

  /** Setting a feature keeps zeros out exactly unless a feature without an entry is set to zero. */
  lemma NoZerosIff(s: seq<Entry>, t: seq<Entry>, id: int, val: int)
    requires NoZeros(s)
    requires forall j :: At(t, j) == if j == id then val else At(s, j)
    requires forall j :: HasId(t, j) <==> if j == id then val != 0 || !HasId(s, id) else HasId(s, j)
    ensures NoZeros(t) <==> val != 0 || HasId(s, id)
  {
    hide At, HasId;
    if val == 0 && !HasId(s, id) {
      assert HasId(t, id) && At(t, id) == 0;
    }
  }

  /** An empty vector in which feature 3 is set to zero has an entry that is zero. */
  method StoreZero() returns (f: SparseFeature)
    ensures f.Valid() && HasId(f.Stored(), 3) && At(f.Stored(), 3) == 0 && !NoZeros(f.Stored())
  {
    f := new SparseFeature();
    f.SetFeatureVal(3, 0);
  }
}
