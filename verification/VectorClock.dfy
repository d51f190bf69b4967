/** The vector clock of a server (one entry per client) and of a client (one entry per thread). */
module VectorClocks {

  datatype VC = VC(clk: map<int, int>, min: int) {

    /** `min` is the least entry. */
    ghost predicate Valid() {
      && (forall id :: id in clk ==> 0 <= min <= clk[id])
      && (exists id :: id in clk && clk[id] == min)
    }

    predicate UniqueMin(id: int) {
      && id in clk && clk[id] == min
      && (forall j :: j in clk && j != id ==> clk[j] != min)
    }

    function Tick(id: int): VC
      requires id in clk
    {
      VC(clk[id := clk[id] + 1], if UniqueMin(id) then min + 1 else min)
    }

    function TickUntil(id: int, clock: int): VC
      requires id in clk
      decreases clock - clk[id]
    {
      if clock <= clk[id] then this else Tick(id).TickUntil(id, clock)
    }
  }

  lemma TickValid(v: VC, id: int)
    requires v.Valid() && id in v.clk
    ensures v.Tick(id).Valid()
  {
    var w := v.Tick(id);
    if v.UniqueMin(id) {
      assert w.clk[id] == w.min;
    } else if v.clk[id] != v.min {
      var j :| j in v.clk && v.clk[j] == v.min;
      assert w.clk[j] == w.min;
    } else {
      var j :| j in v.clk && j != id && v.clk[j] == v.min;
      assert w.clk[j] == w.min;
    }
  }

  /** The least entry only grows, and every other entry is left alone. */
  lemma {:induction false} TickUntilValid(v: VC, id: int, clock: int)
    requires v.Valid() && id in v.clk
    ensures v.TickUntil(id, clock).Valid()
    ensures v.TickUntil(id, clock).clk == v.clk[id := if clock <= v.clk[id] then v.clk[id] else clock]
    ensures v.min <= v.TickUntil(id, clock).min
    decreases clock - v.clk[id]
  {
    if clock <= v.clk[id] {
      assert v.clk == v.clk[id := v.clk[id]];
    } else {
      TickValid(v, id);
      TickUntilValid(v.Tick(id), id, clock);
    }
  }

  /** Raising one entry by one moves the minimum by at most one. */
  lemma TickUntilByOne(v: VC, id: int)
    requires id in v.clk
    ensures v.TickUntil(id, v.clk[id] + 1) == v.Tick(id)
  {
    assert v.Tick(id).TickUntil(id, v.clk[id] + 1) == v.Tick(id);
  }

  lemma SetValidIff(v: VC, id: int, clock: int, w: VC)
    requires v.Valid() && 0 <= clock
    requires w == VC(v.clk[id := clock], if clock < v.min then clock else v.min)
    ensures w.Valid() <==> !v.UniqueMin(id) || clock <= v.min
  {
    assert w.clk[id] == clock;
    if v.UniqueMin(id) {
      if clock > v.min {
        assert forall j :: j in w.clk ==> w.clk[j] != w.min;
      }
    } else if clock >= v.min {
      var j :| j in v.clk && v.clk[j] == v.min
        && (j != id || clock == v.min || exists k :: k in v.clk && k != id && v.clk[k] == v.min);
      if j == id && clock != v.min {
        var k :| k in v.clk && k != id && v.clk[k] == v.min;
        assert w.clk[k] == w.min;
      } else if j != id {
        assert w.clk[j] == w.min;
      }
    }
  }

  class VectorClock {
    var vecClock: map<int, int>
    var minClock: int

    ghost function Abs(): VC reads this {
      VC(vecClock, minClock)
    }

    constructor ()
      ensures vecClock == map[] && minClock == -1
    {
      vecClock, minClock := map[], -1;
    }

    /** Sets an entry; the minimum is only ever lowered. So it stays exact for a new entry, and for one that is there
        already exactly if that was not the only least one or is not raised. */
    method AddClock(id: int, clock: int)
      modifies this
      ensures vecClock == old(vecClock)[id := clock]
      ensures minClock == if old(minClock) == -1 || clock < old(minClock) then clock else old(minClock)
      ensures 0 <= clock && old(vecClock) == map[] && old(minClock) == -1 ==> Abs().Valid()
      ensures 0 <= clock && old(Abs()).Valid() ==>
        (Abs().Valid() <==> !old(Abs()).UniqueMin(id) || clock <= old(minClock))
    {
      ghost var was := Abs();
      vecClock := vecClock[id := clock];
      if minClock == -1 || clock < minClock {
        minClock := clock;
      }
      assert vecClock[id] == clock;
      if 0 <= clock && was.Valid() {
        SetValidIff(was, id, clock, Abs());
      }
    }

    method IsUniqueMin(id: int) returns (unique: bool)
      requires id in vecClock
      ensures unique <==> Abs().UniqueMin(id)
    {
      if vecClock[id] != minClock {
        return false;
      }
      var numMin := 0;
      var left := vecClock.Keys;
      ghost var first := id;
      while exists j :: j in left
        invariant left <= vecClock.Keys && 0 <= numMin <= 1
        invariant forall j :: j in vecClock && j !in left && (numMin == 0 || j != first) ==> vecClock[j] != minClock
        invariant numMin == 1 ==> first in vecClock && first !in left && vecClock[first] == minClock
        decreases |left|
      {
        var j :| j in left;
        left := left - {j};
        if vecClock[j] == minClock {
          numMin := numMin + 1;
          if numMin > 1 {
            assert !Abs().UniqueMin(id);
            return false;
          }
          first := j;
        }
      }
      return true;
    }

    /** The new minimum if this tick moved it, otherwise 0. */
    method Tick(id: int) returns (moved: int)
      requires Abs().Valid() && id in vecClock
      modifies this
      ensures Abs() == old(Abs()).Tick(id) && Abs().Valid()
      ensures moved == if minClock != old(minClock) then minClock else 0
    {
      ghost var before := Abs();
      TickValid(before, id);
      var unique := IsUniqueMin(id);
      vecClock := vecClock[id := vecClock[id] + 1];
      if unique {
        minClock := minClock + 1;
        return minClock;
      }
      return 0;
    }

    method TickUntil(id: int, clock: int) returns (moved: int)
      requires Abs().Valid() && id in vecClock
      modifies this
      ensures Abs() == old(Abs()).TickUntil(id, clock) && Abs().Valid()
      ensures moved == if minClock != old(minClock) then minClock else 0
    {
      var numTicks := clock - vecClock[id];
      moved := 0;
      var i := 0;
      while i < numTicks
        invariant Abs().Valid() && id in vecClock
        invariant 0 <= i && (0 <= numTicks ==> i <= numTicks)
        invariant vecClock[id] == old(vecClock)[id] + i
        invariant Abs().TickUntil(id, clock) == old(Abs()).TickUntil(id, clock)
        invariant moved == if minClock != old(minClock) then minClock else 0
        invariant old(minClock) <= minClock
      {
        var changed := Tick(id);
        if changed != 0 {
          moved := changed;
        }
        i := i + 1;
      }
    }
  }
}
