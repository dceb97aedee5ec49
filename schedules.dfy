/**
  The three conveyor schedules of CalculationConveyorProduction/visualization.py,
  computed from the conveyors' numbers `ms` and their (already adjusted)
  processing times `ts`, in the order the conveyors are processed, for
  `goods` items. A schedule maps a conveyor number to the list of its working
  intervals, each a start time and a length.

  Each builder's loop is a method proved against a recursive definition of
  the start times, and the lemmas below say what those start times are: the
  sequential plan is contiguous, the parallel plan runs one item at a time,
  the optimized plan never overlaps two items on a conveyor nor two stages of
  an item, and the finishing times agree with the closed-form totals.
 */
module Schedules {
  import opened Sequences

  datatype Interval = Interval(start: real, length: real)

  type Schedule = map<int, seq<Interval>>

  /** The number of items `range(goods)` visits: none for goods <= 0. */
  function Items(goods: int): nat {
    if goods <= 0 then 0 else goods
  }

  /** The conveyor numbers that head a row of the schedule. */
  function Keys(ms: seq<int>): (ks: set<int>)
    ensures forall j :: 0 <= j < |ms| ==> ms[j] in ks
    ensures forall m :: m in ks ==> m in ms
  {
    set j | 0 <= j < |ms| :: ms[j]
  }

  lemma KeysSnoc(ms: seq<int>, j: nat)
    requires j < |ms|
    ensures Keys(ms[..j + 1]) == Keys(ms[..j]) + {ms[j]}
  {
    var a, b := ms[..j + 1], ms[..j];
    assert forall k :: 0 <= k < j ==> a[k] == b[k];
    assert a[j] == ms[j];
  }

  // ---------------------------------------------------------------------------
  // Sequential organization: each conveyor processes the whole batch, one
  // conveyor after the other.

  /** Where conveyor j's single interval starts: the batch times of the conveyors before it, added up. */
  function SeqStart(goods: int, ts: seq<real>, j: nat): real
    requires j <= |ts|
  {
    if j == 0 then 0.0 else SeqStart(goods, ts, j - 1) + ts[j - 1] * (goods as real)
  }

  /** Conveyor j's row: one interval, the whole batch. */
  function SequentialRow(goods: int, ts: seq<real>, j: nat): seq<Interval>
    requires j < |ts|
  {
    [Interval(SeqStart(goods, ts, j), ts[j] * (goods as real))]
  }

  method SequentialSchedule(goods: int, ms: seq<int>, ts: seq<real>) returns (schedule: Schedule)
    requires |ms| == |ts|
    ensures schedule.Keys == Keys(ms)
    ensures Distinct(ms) ==> forall j :: 0 <= j < |ms| ==> schedule[ms[j]] == SequentialRow(goods, ts, j)
  {
    schedule := map[];
    var currentTime := 0.0;
    for j := 0 to |ms|
      invariant schedule.Keys == Keys(ms[..j])
      invariant forall p :: 0 <= p < j ==> ms[p] in schedule
      invariant currentTime == SeqStart(goods, ts, j)
      invariant Distinct(ms) ==> forall p :: 0 <= p < j ==> schedule[ms[p]] == SequentialRow(goods, ts, p)
    {
      var processingTime := ts[j] * (goods as real);
      KeysSnoc(ms, j);
      if Distinct(ms) {
        SequentialRowsStep(schedule, goods, ms, ts, j, currentTime);
      }
      schedule := schedule[ms[j] := [Interval(currentTime, processingTime)]];
      currentTime := currentTime + processingTime;
    }
    assert ms[..|ms|] == ms;
  }

  /** Writing conveyor j's row keeps the rows of the conveyors before it. */
  lemma SequentialRowsStep(schedule: Schedule, goods: int, ms: seq<int>, ts: seq<real>, j: nat, currentTime: real)
    requires j < |ms| == |ts| && Distinct(ms)
    requires forall p :: 0 <= p < j ==> ms[p] in schedule && schedule[ms[p]] == SequentialRow(goods, ts, p)
    requires currentTime == SeqStart(goods, ts, j)
    ensures forall p :: 0 <= p <= j ==>
              schedule[ms[j] := [Interval(currentTime, ts[j] * (goods as real))]][ms[p]] == SequentialRow(goods, ts, p)
  {
    var next := schedule[ms[j] := [Interval(currentTime, ts[j] * (goods as real))]];
    assert next[ms[j]] == SequentialRow(goods, ts, j);
    forall p | 0 <= p < j ensures next[ms[p]] == SequentialRow(goods, ts, p) {
      assert ms[p] != ms[j];
    }
  }

  /** The sequential plan is contiguous: it starts at 0 and each conveyor starts when the previous one ends. */
  lemma SequentialContiguous(goods: int, ts: seq<real>, j: nat)
    requires j < |ts|
    ensures SequentialRow(goods, ts, j)[0].length == ts[j] * (goods as real)
    ensures SequentialRow(goods, ts, j)[0].start ==
              if j == 0 then 0.0 else SequentialRow(goods, ts, j - 1)[0].start + SequentialRow(goods, ts, j - 1)[0].length
  {
  }

  /** The sequential plan ends after `sum(ts) * goods`. */
  lemma {:induction false} SequentialMakespan(goods: int, ts: seq<real>)
    ensures SeqStart(goods, ts, |ts|) == Sum(ts) * (goods as real)
  {
    SeqStartPrefix(goods, ts, |ts|);
    assert ts[..|ts|] == ts;
  }

  lemma {:induction false} SeqStartPrefix(goods: int, ts: seq<real>, j: nat)
    requires j <= |ts|
    ensures SeqStart(goods, ts, j) == Sum(ts[..j]) * (goods as real)
  {
    if j > 0 {
      SeqStartPrefix(goods, ts, j - 1);
      SumSnoc(ts, j - 1);
      var g := goods as real;
      assert (Sum(ts[..j - 1]) + ts[j - 1]) * g == Sum(ts[..j - 1]) * g + ts[j - 1] * g;
    }
  }

  // ---------------------------------------------------------------------------
  // Parallel organization: items go through the line one after the other; an
  // item's pass starts no earlier than the previous item's last stage ended.

  /** The running time of item i's pass when it reaches conveyor j. */
  function ParCursor(ts: seq<real>, i: nat, j: nat): real
    requires j <= |ts|
    decreases i, j, 0
  {
    if j == 0 then 0.0 else ParStart(ts, i, j - 1) + ts[j - 1]
  }

  /** When item i starts on conveyor j. */
  function ParStart(ts: seq<real>, i: nat, j: nat): real
    requires j < |ts|
    decreases i, j, 1
  {
    if i == 0 then ParCursor(ts, 0, j) else Max(ParCursor(ts, i, j), ParFinish(ts, i - 1))
  }

  /** When item i leaves the last conveyor (`finish_times[i]`). */
  function ParFinish(ts: seq<real>, i: nat): real
    decreases i, |ts|, 2
  {
    ParCursor(ts, i, |ts|)
  }

  function ParallelRow(goods: int, ts: seq<real>, j: nat): seq<Interval>
    requires j < |ts|
  {
    seq(Items(goods), (i: nat) => Interval(ParStart(ts, i, j), ts[j]))
  }

  method ParallelSchedule(goods: int, ms: seq<int>, ts: seq<real>) returns (schedule: Schedule)
    requires |ms| == |ts|
    ensures schedule.Keys == Keys(ms)
    ensures Distinct(ms) ==> forall j :: 0 <= j < |ms| ==> schedule[ms[j]] == ParallelRow(goods, ts, j)
  {
    var n := |ms|;
    schedule := map j | 0 <= j < n :: ms[j] := [];
    var finishTimes := seq(Items(goods), _ => 0.0);
    for i := 0 to Items(goods)
      invariant schedule.Keys == Keys(ms)
      invariant |finishTimes| == Items(goods)
      invariant forall p :: 0 <= p < i ==> finishTimes[p] == ParFinish(ts, p)
      invariant Distinct(ms) ==> forall j :: 0 <= j < n ==> schedule[ms[j]] == ParallelRow(i, ts, j)
    {
      var currentTime;
      schedule, currentTime := ParallelItem(ms, ts, i, if i == 0 then 0.0 else finishTimes[i - 1], schedule);
      finishTimes := finishTimes[i := currentTime];
    }
    if Distinct(ms) {
      assert forall j :: 0 <= j < n ==> ParallelRow(Items(goods), ts, j) == ParallelRow(goods, ts, j);
    }
  }

  /** One pass of the outer loop: item i through every conveyor, appending one interval to each row. */
  method ParallelItem(ms: seq<int>, ts: seq<real>, i: nat, previousFinish: real, schedule: Schedule)
    returns (next: Schedule, currentTime: real)
    requires |ms| == |ts| && schedule.Keys == Keys(ms)
    requires i > 0 ==> previousFinish == ParFinish(ts, i - 1)
    requires Distinct(ms) ==> forall j :: 0 <= j < |ms| ==> schedule[ms[j]] == ParallelRow(i, ts, j)
    ensures next.Keys == Keys(ms)
    ensures currentTime == ParFinish(ts, i)
    ensures Distinct(ms) ==> forall j :: 0 <= j < |ms| ==> next[ms[j]] == ParallelRow(i + 1, ts, j)
  {
    var n := |ms|;
    next := schedule;
    currentTime := 0.0;
    for j := 0 to n
      invariant next.Keys == Keys(ms)
      invariant currentTime == ParCursor(ts, i, j)
      invariant Distinct(ms) ==> forall k :: 0 <= k < j ==> next[ms[k]] == ParallelRow(i + 1, ts, k)
      invariant Distinct(ms) ==> forall k :: j <= k < n ==> next[ms[k]] == ParallelRow(i, ts, k)
    {
      var startTime;
      if i == 0 {
        startTime := currentTime;
        currentTime := currentTime + ts[j];
      } else {
        startTime := Max(currentTime, previousFinish);
        currentTime := startTime + ts[j];
      }
      assert ms[j] in Keys(ms);
      if Distinct(ms) {
        assert ParallelRow(i + 1, ts, j) == ParallelRow(i, ts, j) + [Interval(startTime, ts[j])];
        assert forall k :: 0 <= k < n && k != j ==> ms[k] != ms[j];
      }
      next := next[ms[j] := next[ms[j]] + [Interval(startTime, ts[j])]];
    }
  }

  predicate NonNegative(ts: seq<real>) {
    forall k :: 0 <= k < |ts| ==> ts[k] >= 0.0
  }

  /** n * v written as n additions of v, which keeps the closed forms below linear. */
  function Times(n: nat, v: real): real {
    if n == 0 then 0.0 else Times(n - 1, v) + v
  }

  lemma {:induction false} TimesIsProduct(n: nat, v: real)
    ensures Times(n, v) == (n as real) * v
  {
    if n > 0 {
      TimesIsProduct(n - 1, v);
      assert ((n - 1) as real) * v + v == (n as real) * v;
    }
  }

  lemma {:induction false} TimesMonotone(n: nat, a: real, b: real)
    requires a <= b
    ensures Times(n, a) <= Times(n, b)
  {
    if n > 0 {
      TimesMonotone(n - 1, a, b);
    }
  }

  /**
    Each item's pass waits for the previous item's whole pass, and within a
    pass each conveyor starts no earlier than the previous stage ends.
   */
  lemma ParallelOneItemAtATime(ts: seq<real>, i: nat, j: nat)
    requires j < |ts|
    ensures i > 0 ==> ParStart(ts, i, j) >= ParFinish(ts, i - 1)
    ensures j > 0 ==> ParStart(ts, i, j) >= ParStart(ts, i, j - 1) + ts[j - 1]
  {
  }

  /**
    With non-negative times the parallel plan is the sequential plan item by
    item: item i starts on conveyor j at i * sum(ts) + sum(ts[..j]) and leaves
    the line at (i + 1) * sum(ts).
   */
  lemma {:induction false} ParCursorClosed(ts: seq<real>, i: nat, j: nat)
    requires NonNegative(ts) && j <= |ts|
    ensures ParCursor(ts, i, j) == if j == 0 then 0.0 else Times(i, Sum(ts)) + Sum(ts[..j])
    decreases i, j, 0
  {
    if j > 0 {
      ParStartClosed(ts, i, j - 1);
      SumSnoc(ts, j - 1);
    }
  }

  lemma {:induction false} ParStartClosed(ts: seq<real>, i: nat, j: nat)
    requires NonNegative(ts) && j < |ts|
    ensures ParStart(ts, i, j) == Times(i, Sum(ts)) + Sum(ts[..j])
    decreases i, j, 1
  {
    ParCursorClosed(ts, i, j);
    SumNonNegative(ts);
    SumNonNegative(ts[..j]);
    if i > 0 {
      ParFinishClosed(ts, i - 1);
      TimesMonotone(i, 0.0, Sum(ts));
      assert Times(i, 0.0) == 0.0 by { TimesIsProduct(i, 0.0); }
    } else {
      assert ts[..0] == [];
    }
  }

  lemma {:induction false} ParFinishClosed(ts: seq<real>, i: nat)
    requires NonNegative(ts)
    ensures ParFinish(ts, i) == Times(i + 1, Sum(ts))
    decreases i, |ts|, 2
  {
    ParCursorClosed(ts, i, |ts|);
    assert ts[..|ts|] == ts;
    if |ts| == 0 {
      TimesIsProduct(i + 1, 0.0);
    }
  }

  // ---------------------------------------------------------------------------
  // Optimized continuous organization: an item enters conveyor j as soon as
  // both the conveyor is free and the item has left conveyor j - 1; the first
  // conveyor takes item i at ts[0] * i.

  /** When item i starts on conveyor j. */
  function OptStart(ts: seq<real>, i: nat, j: nat): real
    requires j < |ts|
    decreases i, j, 0
  {
    if j == 0 then ts[0] * (i as real)
    else Max(if i == 0 then 0.0 else OptFinish(ts, i - 1, j), OptFinish(ts, i, j - 1))
  }

  /** When item i leaves conveyor j (`goods_finish_times[i][j]`). */
  function OptFinish(ts: seq<real>, i: nat, j: nat): real
    requires j < |ts|
    decreases i, j, 1
  {
    OptStart(ts, i, j) + ts[j]
  }

  function OptimizedRow(goods: int, ts: seq<real>, j: nat): seq<Interval>
    requires j < |ts|
  {
    seq(Items(goods), (i: nat) => Interval(OptStart(ts, i, j), ts[j]))
  }

  method OptimizedSchedule(goods: int, ms: seq<int>, ts: seq<real>) returns (schedule: Schedule)
    requires |ms| == |ts|
    ensures schedule.Keys == Keys(ms)
    ensures Distinct(ms) ==> forall j :: 0 <= j < |ms| ==> schedule[ms[j]] == OptimizedRow(goods, ts, j)
  {
    var n := |ms|;
    schedule := map j | 0 <= j < n :: ms[j] := [];
    var conveyorFinishTimes := seq(n, _ => 0.0);
    var goodsFinishTimes := seq(Items(goods), _ => seq(n, _ => 0.0));
    for i := 0 to Items(goods)
      invariant OptimizedRows(schedule, ms, ts, i)
      invariant ConveyorsFree(conveyorFinishTimes, ts, i)
      invariant |goodsFinishTimes| == Items(goods)
      invariant forall p :: i <= p < Items(goods) ==> |goodsFinishTimes[p]| == n
    {
      var row;
      schedule, conveyorFinishTimes, row := OptimizedItem(ms, ts, i, conveyorFinishTimes, goodsFinishTimes[i], schedule);
      goodsFinishTimes := goodsFinishTimes[i := row];
    }
    if Distinct(ms) {
      assert forall j :: 0 <= j < n ==> OptimizedRow(Items(goods), ts, j) == OptimizedRow(goods, ts, j);
    }
  }

  /** The optimized schedule after the first i items: each conveyor has its first i intervals. */
  predicate OptimizedRows(schedule: Schedule, ms: seq<int>, ts: seq<real>, i: nat) {
    |ms| == |ts| && schedule.Keys == Keys(ms) &&
    (Distinct(ms) ==> forall j :: 0 <= j < |ms| ==> schedule[ms[j]] == OptimizedRow(i, ts, j))
  }

  /** `conveyor_finish_times` after the first i items: when each conveyor released item i - 1. */
  predicate ConveyorsFree(conveyorFinishTimes: seq<real>, ts: seq<real>, i: nat) {
    |conveyorFinishTimes| == |ts| &&
    forall k :: 0 <= k < |ts| ==> conveyorFinishTimes[k] == if i == 0 then 0.0 else OptFinish(ts, i - 1, k)
  }

  /**
    One pass of the outer loop: item i through every conveyor, with the
    conveyors' last finishing times and item i's row of finishing times.
   */
  method OptimizedItem(ms: seq<int>, ts: seq<real>, i: nat, conveyorFinishTimes: seq<real>, goodsRow: seq<real>, schedule: Schedule)
    returns (next: Schedule, conveyorFinish: seq<real>, row: seq<real>)
    requires OptimizedRows(schedule, ms, ts, i) && ConveyorsFree(conveyorFinishTimes, ts, i) && |goodsRow| == |ts|
    ensures OptimizedRows(next, ms, ts, i + 1) && ConveyorsFree(conveyorFinish, ts, i + 1)
    ensures |row| == |ts| && forall k :: 0 <= k < |ts| ==> row[k] == OptFinish(ts, i, k)
  {
    var n := |ms|;
    assert ms[..] == ms;
    next, conveyorFinish, row := schedule, conveyorFinishTimes, goodsRow;
    for j := 0 to n
      invariant next.Keys == Keys(ms)
      invariant |conveyorFinish| == n && |row| == n
      invariant forall k :: 0 <= k < j ==> conveyorFinish[k] == OptFinish(ts, i, k) && row[k] == OptFinish(ts, i, k)
      invariant forall k :: j <= k < n ==> conveyorFinish[k] == if i == 0 then 0.0 else OptFinish(ts, i - 1, k)
      invariant Distinct(ms) ==> forall k :: 0 <= k < j ==> next[ms[k]] == OptimizedRow(i + 1, ts, k)
      invariant Distinct(ms) ==> forall k :: j <= k < n ==> next[ms[k]] == OptimizedRow(i, ts, k)
    {
      var startTime;
      if j == 0 {
        startTime := ts[j] * (i as real);
      } else {
        startTime := Max(conveyorFinish[j], row[j - 1]);
      }
      assert startTime == OptStart(ts, i, j);
      var finishTime := startTime + ts[j];
      assert ms[j] in Keys(ms);
      if Distinct(ms) {
        assert OptimizedRow(i + 1, ts, j) == OptimizedRow(i, ts, j) + [Interval(startTime, ts[j])];
        assert forall k :: 0 <= k < n && k != j ==> ms[k] != ms[j];
      }
      next := next[ms[j] := next[ms[j]] + [Interval(startTime, ts[j])]];
      conveyorFinish := conveyorFinish[j := finishTime];
      row := row[j := finishTime];
    }
  }

  /**
    No conflicts in the optimized plan: a conveyor takes item i only after it
    has finished item i - 1, and an item enters conveyor j only after it has
    left conveyor j - 1.
   */
  lemma OptimizedNoConflicts(ts: seq<real>, i: nat, j: nat)
    requires j < |ts|
    ensures i > 0 ==> OptStart(ts, i, j) >= OptFinish(ts, i - 1, j)
    ensures j > 0 ==> OptStart(ts, i, j) >= OptFinish(ts, i, j - 1)
  {
    if i > 0 && j == 0 {
      assert ts[0] * (i as real) == ts[0] * ((i - 1) as real) + ts[0];
    }
  }

  /**
    With non-negative times item i leaves conveyor j at
    sum(ts[..j + 1]) + i * max(ts[..j + 1]): after the first item the line
    moves at the pace of its slowest conveyor so far.
   */
  lemma {:induction false} OptFinishClosed(ts: seq<real>, i: nat, j: nat)
    requires NonNegative(ts) && j < |ts|
    ensures OptFinish(ts, i, j) == Sum(ts[..j + 1]) + Times(i, MaxOf(ts[..j + 1]))
    decreases i, j
  {
    if j == 0 {
      OptFinishFirst(ts, i);
    } else {
      OptFinishClosed(ts, i, j - 1);
      if i > 0 {
        OptFinishClosed(ts, i - 1, j);
      }
      OptFinishNext(ts, i, j);
    }
  }

  /** The first conveyor takes item i at ts[0] * i and releases it ts[0] later. */
  lemma OptFinishFirst(ts: seq<real>, i: nat)
    requires |ts| > 0
    ensures OptFinish(ts, i, 0) == Sum(ts[..1]) + Times(i, MaxOf(ts[..1]))
  {
    assert ts[..1] == [ts[0]];
    assert Sum([ts[0]]) == Sum([]) + ts[0];
    TimesIsProduct(i, ts[0]);
  }

  /** The inductive step of OptFinishClosed on a later conveyor. */
  lemma OptFinishNext(ts: seq<real>, i: nat, j: nat)
    requires NonNegative(ts) && 0 < j < |ts|
    requires OptFinish(ts, i, j - 1) == Sum(ts[..j]) + Times(i, MaxOf(ts[..j]))
    requires i > 0 ==> OptFinish(ts, i - 1, j) == Sum(ts[..j + 1]) + Times(i - 1, MaxOf(ts[..j + 1]))
    ensures OptFinish(ts, i, j) == Sum(ts[..j + 1]) + Times(i, MaxOf(ts[..j + 1]))
  {
    SumSnoc(ts, j);
    MaxOfSnoc(ts, j);
    var p, t, mPrev := Sum(ts[..j]), ts[j], MaxOf(ts[..j]);
    if i == 0 {
      SumNonNegative(ts[..j]);
      assert OptStart(ts, i, j) == Max(0.0, p);
    } else {
      OptStep(i, p, t, mPrev);
    }
  }

  /** The step of OptFinishClosed: the later of "conveyor free" and "previous stage done". */
  lemma OptStep(i: nat, p: real, t: real, mPrev: real)
    requires i > 0
    ensures Max(p + t + Times(i - 1, Max(mPrev, t)), p + Times(i, mPrev)) == p + Times(i, Max(mPrev, t))
  {
    if t >= mPrev {
      TimesMonotone(i, mPrev, t);
    } else {
      TimesMonotone(i - 1, t, mPrev);
    }
  }
}
