/** Clocks and the global barrier of a process. */
module TableGroups {
  import opened VectorClocks

  /** What a thread's Clock makes happen, in order. */
  datatype Action = FlushTable(thread: int, table: int) | Tick(thread: int) | ClockAllTables

  class TableGroup {
    const vectorClock: VectorClock
    var staleness: map<int, int>
    var maxTableStaleness: int
    /** The iteration each thread is in. */
    var clocks: map<int, int>
    var trace: seq<Action>

    ghost predicate Valid()
      reads this, vectorClock
    {
      && vectorClock.Abs().Valid() && clocks == vectorClock.vecClock
      && 0 <= maxTableStaleness && forall t :: t in staleness ==> staleness[t] <= maxTableStaleness
    }

    /** A process whose threads are registered. */
    constructor (threads: VectorClock)
      requires threads.Abs().Valid()
      ensures Valid() && vectorClock == threads && staleness == map[] && trace == []
    {
      vectorClock, clocks := threads, threads.vecClock;
      staleness, maxTableStaleness, trace := map[], 0, [];
    }

    method CreateTable(table: int, tableStaleness: int)
      requires Valid() && table !in staleness
      modifies this`staleness, this`maxTableStaleness
      ensures Valid() && staleness == old(staleness)[table := tableStaleness]
      ensures maxTableStaleness == old(maxTableStaleness) || maxTableStaleness == tableStaleness
    {
      if tableStaleness > maxTableStaleness {
        maxTableStaleness := tableStaleness;
      }
      staleness := staleness[table := tableStaleness];
    }

    /** ClockConservative: every table is flushed before the thread's entry ticks, and the workers are told to clock
        only if that moved the least entry. */
    method Clock(thread: int) returns (ghost flushes: seq<Action>)
      requires Valid() && thread in clocks
      modifies this`clocks, this`trace, vectorClock
      ensures Valid() && vectorClock.Abs() == old(vectorClock.Abs()).Tick(thread)
      ensures clocks == old(clocks)[thread := old(clocks)[thread] + 1]
      ensures forall t :: t in staleness <==> FlushTable(thread, t) in flushes
      ensures forall a :: a in flushes ==> a.FlushTable? && a.thread == thread
      ensures trace == old(trace) + flushes + [Tick(thread)]
                       + if vectorClock.minClock != old(vectorClock.minClock) then [ClockAllTables] else []
    {
      clocks := clocks[thread := clocks[thread] + 1];
      var done: seq<Action> := [];
      var left := staleness.Keys;
      while exists t :: t in left
        invariant left <= staleness.Keys
        invariant forall t :: t in staleness && t !in left ==> FlushTable(thread, t) in done
        invariant forall a :: a in done ==> a.FlushTable? && a.thread == thread && a.table in staleness
        decreases |left|
      {
        var t :| t in left;
        left := left - {t};
        done := done + [FlushTable(thread, t)];
      }
      flushes := done;
      var clock := vectorClock.Tick(thread);
      trace := trace + done + [Tick(thread)] + if clock != 0 then [ClockAllTables] else [];
    }

    /** The thread's clock goes up by more than any table's staleness. */
    method GlobalBarrier(thread: int)
      requires Valid() && thread in clocks
      modifies this`clocks, this`trace, vectorClock
      ensures Valid() && clocks == old(clocks)[thread := old(clocks)[thread] + maxTableStaleness + 1]
      ensures forall t :: t in staleness ==> old(clocks)[thread] < clocks[thread] - staleness[t]
    {
      var i := 0;
      while i < maxTableStaleness + 1
        invariant Valid() && 0 <= i <= maxTableStaleness + 1
        invariant clocks == old(clocks)[thread := old(clocks)[thread] + i]
      {
        var flushes := Clock(thread);
        i := i + 1;
      }
    }
  }
}
