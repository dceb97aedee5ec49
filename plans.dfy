/**
  The vocabulary the script of CalculationConveyorProduction/visualization.py
  is specified in: a time divided n times by its worker count, the three
  plans and the row each gives a conveyor, what it means for a schedule to
  be a plan's schedule, what calculate_times returns, and what the three
  builders leave behind when they share the conveyors and when they do not.
 */
module ConveyorPlans {
  import opened Wrappers
  import opened Sequences
  import opened Schedules
  import opened Conveyors

  /** t divided n times by c. */
  function Divided(t: real, c: real, n: nat): real
    requires c != 0.0
  {
    if n == 0 then t else Divided(t, c, n - 1) / c
  }

  /** Every time divided n times by its worker count. */
  function DividedBy(ts: seq<real>, ws: seq<real>, n: nat): (r: seq<real>)
    requires |ts| == |ws| && Staffed(ws)
    ensures |r| == |ts| && forall k :: 0 <= k < |ts| ==> r[k] == Divided(ts[k], ws[k], n)
  {
    seq(|ts|, k requires 0 <= k < |ts| => Divided(ts[k], ws[k], n))
  }

  /** Dividing once more after n divisions is n + 1 divisions. */
  lemma DividedByAgain(ts: seq<real>, ws: seq<real>, n: nat)
    requires |ts| == |ws| && Staffed(ws)
    ensures DividedBy(DividedBy(ts, ws, n), ws, 1) == DividedBy(ts, ws, n + 1)
  {
    var once := DividedBy(DividedBy(ts, ws, n), ws, 1);
    forall k | 0 <= k < |ts| ensures once[k] == DividedBy(ts, ws, n + 1)[k] {
      assert Divided(DividedBy(ts, ws, n)[k], ws[k], 1) == Divided(ts[k], ws[k], n) / ws[k];
    }
  }

  /** The three schedule builders. */
  datatype Plan = Sequential | Parallel | Optimized

  /** The row a plan gives the j-th conveyor. */
  function Row(plan: Plan, goods: int, ts: seq<real>, j: nat): seq<Interval>
    requires j < |ts|
  {
    match plan
    case Sequential => SequentialRow(goods, ts, j)
    case Parallel => ParallelRow(goods, ts, j)
    case Optimized => OptimizedRow(goods, ts, j)
  }

  /** Row for each plan (the match of Row, for callers with many facts in scope). */
  lemma RowCases(goods: int, ts: seq<real>, j: nat)
    requires j < |ts|
    ensures Row(Sequential, goods, ts, j) == SequentialRow(goods, ts, j)
    ensures Row(Parallel, goods, ts, j) == ParallelRow(goods, ts, j)
    ensures Row(Optimized, goods, ts, j) == OptimizedRow(goods, ts, j)
  {}

  /**
    The schedule a plan builds for conveyors numbered ms with times ts: one
    row per number and, when no number repeats, the row of the j-th conveyor
    is the plan's j-th row.
   */
  predicate Builds(schedule: Schedule, plan: Plan, goods: int, ms: seq<int>, ts: seq<real>)
    requires |ms| == |ts|
  {
    schedule.Keys == Keys(ms) &&
    (Distinct(ms) ==> forall j :: 0 <= j < |ms| ==> schedule[ms[j]] == Row(plan, goods, ts, j))
  }

  /**
    What the three builders of lines 150-152 leave behind when each is
    handed `conveyors.copy()` of a list with numbers ms, worker counts ws
    and times T: the conveyors end with the times ts, T divided three times,
    the sequential plan is built from T divided once, the parallel plan from
    T divided twice and the optimized plan from T divided three times.
   */
  predicate ShallowPlans(seqS: Schedule, parS: Schedule, optS: Schedule, goods: int,
                         ms: seq<int>, ws: seq<real>, ts: seq<real>, T: seq<real>) {
    |ms| == |ws| == |T| && Staffed(ws) && ts == DividedBy(T, ws, 3) &&
    Builds(seqS, Sequential, goods, ms, DividedBy(T, ws, 1)) &&
    Builds(parS, Parallel, goods, ms, DividedBy(T, ws, 2)) &&
    Builds(optS, Optimized, goods, ms, DividedBy(T, ws, 3))
  }

  /**
    What calculate_times returns for worker counts ws and times T: a
    ZeroDivisionError when a count is zero, otherwise the totals of every
    time divided once by its count.
   */
  predicate Totalled(r: Result<Totals, PyError>, goods: int, ws: seq<real>, T: seq<real>) {
    (!Staffed(ws) ==> r == Failure(ZeroDivisionError)) &&
    (r.Success? ==> Staffed(ws)) &&
    (Staffed(ws) ==> |ws| == |T| && r == TimesTotals(goods, DividedBy(T, ws, 1)))
  }

  /**
    What the three builders leave behind when each is handed conveyors of
    its own for a list with numbers ms, worker counts ws and times T: all
    three plans are built from T divided once.
   */
  predicate DeepPlans(seqS: Schedule, parS: Schedule, optS: Schedule, goods: int,
                      ms: seq<int>, ws: seq<real>, T: seq<real>) {
    |ms| == |ws| == |T| && Staffed(ws) &&
    Builds(seqS, Sequential, goods, ms, DividedBy(T, ws, 1)) &&
    Builds(parS, Parallel, goods, ms, DividedBy(T, ws, 1)) &&
    Builds(optS, Optimized, goods, ms, DividedBy(T, ws, 1))
  }
}
