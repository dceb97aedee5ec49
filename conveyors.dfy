/**
  The conveyors of CalculationConveyorProduction/visualization.py and the
  operations on a list of them: `adjust_time_with_workers`, the in-place
  sort by conveyor number, the in-place adjustment of every conveyor's time,
  the three schedule builders and `calculate_times`.

  A conveyor is a dictionary the source mutates in place, so it is a class
  whose time `t` is a field the builders overwrite; the number `m` and the
  worker count `c` are never written. A list of conveyors is an array of
  references, so two lists can share the same conveyors.
 */
module Conveyors {
  import opened Wrappers
  import opened Sequences
  import opened Schedules

  /** A processing time: a number, or the infinity returned when there are no workers. */
  datatype Duration = Finite(value: real) | Unbounded

  /** `adjust_time_with_workers`: the base time shared among c workers. */
  function AdjustTimeWithWorkers(tBase: real, c: real): (d: Duration)
    ensures d.Unbounded? <==> c == 0.0
    ensures d.Finite? ==> d.value * c == tBase
  {
    if c == 0.0 then Unbounded else Finite(tBase / c)
  }

  class Conveyor {
    /** The conveyor's number, which is also its position in the line. */
    const m: int
    /** The processing time of one item; overwritten by the schedule builders. */
    var t: real
    /** The number of workers. */
    const c: real

    constructor (m: int, t: real, c: real)
      ensures this.m == m && this.t == t && this.c == c
    {
      this.m := m;
      this.t := t;
      this.c := c;
    }
  }

  /** The sort key `lambda x: x['m']`. */
  function Priority(x: Conveyor): real {
    x.m as real
  }

  /** The conveyor numbers, in list order. */
  function Ms(cs: seq<Conveyor>): (ms: seq<int>)
    ensures |ms| == |cs| && forall k :: 0 <= k < |cs| ==> ms[k] == cs[k].m
  {
    seq(|cs|, k requires 0 <= k < |cs| => cs[k].m)
  }

  /** The worker counts, in list order (a worker count is never written). */
  function Cs(cs: seq<Conveyor>): (ws: seq<real>)
    ensures |ws| == |cs| && forall k :: 0 <= k < |cs| ==> ws[k] == cs[k].c
  {
    seq(|cs|, k requires 0 <= k < |cs| => cs[k].c)
  }

  /** No worker count is zero. */
  predicate Staffed(ws: seq<real>) {
    forall k :: 0 <= k < |ws| ==> ws[k] != 0.0
  }

  /** The conveyor times, in list order. */
  function Ts(cs: seq<Conveyor>): (ts: seq<real>)
    reads cs
    ensures |ts| == |cs| && forall k :: 0 <= k < |cs| ==> ts[k] == cs[k].t
  {
    seq(|cs|, k requires 0 <= k < |cs| reads cs => cs[k].t)
  }

  /** `conveyor['t'] / conveyor['c']` for every conveyor, when no worker count is zero. */
  function Rates(cs: seq<Conveyor>): seq<real>
    requires Staffed(Cs(cs))
    reads cs
  {
    seq(|cs|, k requires 0 <= k < |cs| reads cs => cs[k].t / cs[k].c)
  }

  /**
    `conveyors.sort(key=lambda x: x['m'])`: a stable sort of the list in
    place; the conveyors themselves are not touched.
   */
  method SortByPriority(a: array<Conveyor>)
    modifies a
    ensures a[..] == SortBy(old(a[..]), Priority)
    ensures Ts(a[..]) == old(Ts(SortBy(a[..], Priority)))
  {
    ghost var s := a[..];
    ghost var before := Ts(SortBy(s, Priority));
    for i := 0 to a.Length
      invariant a[..i] == SortBy(s[..i], Priority)
      invariant a[i..] == s[i..]
    {
      InsertIntoPrefix(a, i);
      assert s[..i + 1] == s[..i] + [s[i]];
      assert s[..i + 1][..i] == s[..i];
    }
    assert s[..a.Length] == s;
    forall k | 0 <= k < a.Length ensures a[k].t == before[k] {
      assert a[k] as object != a as object;
    }
  }

  /** One step of the insertion sort: moves a[i] left past every larger key in a[..i]. */
  method InsertIntoPrefix(a: array<Conveyor>, i: nat)
    requires i < a.Length
    modifies a
    ensures a[..i + 1] == InsertBy(old(a[..i]), old(a[i]), Priority)
    ensures a[i + 1..] == old(a[i + 1..])
  {
    ghost var sorted := a[..i];
    var x := a[i];
    var j := i;
    while j > 0 && Priority(a[j - 1]) > Priority(x)
      invariant 0 <= j <= i
      invariant forall k :: 0 <= k < j ==> a[k] == sorted[k]
      invariant forall k :: j < k <= i ==> a[k] == sorted[k - 1]
      invariant forall k :: i < k < a.Length ==> a[k] == old(a[k])
      invariant forall k :: j <= k < i ==> Priority(sorted[k]) > Priority(x)
    {
      a[j] := a[j - 1];
      j := j - 1;
    }
    a[j] := x;
    InsertByAt(sorted, x, Priority, j);
    ghost var r := sorted[..j] + [x] + sorted[j..];
    assert forall k :: 0 <= k <= i ==> a[k] == r[k];
    assert a[..i + 1] == r;
  }

  /**
    The first two statements of every schedule builder: sort the list by
    conveyor number, then replace each conveyor's time by its adjusted time.
   */
  method PrepareConveyors(a: array<Conveyor>)
    requires Distinct(a[..])
    requires forall k :: 0 <= k < a.Length ==> a[k].c != 0.0
    modifies a, a[..]
    ensures a[..] == SortBy(old(a[..]), Priority)
    ensures forall x :: x in old(a[..]) ==> x.t == old(x.t) / x.c
  {
    ghost var cs := a[..];
    SortByPriority(a);
    SortedRearranges(cs);
    ghost var sorted := a[..];
    forall k | 0 <= k < a.Length ensures a[k] in cs {
      assert a[k] == sorted[k];
    }
    AdjustTimes(a);
    assert a[..] == sorted;
  }

  /** s is cs sorted by number: ordered, made of cs's conveyors, without repeats when cs has none. */
  predicate SortedFrom(s: seq<Conveyor>, cs: seq<Conveyor>) {
    s == SortBy(cs, Priority) && SortedBy(s, Priority) && (Distinct(cs) ==> Distinct(s)) &&
    forall k :: 0 <= k < |s| ==> s[k] in cs
  }

  /**
    The list sorted by number is sorted, holds exactly the list's conveyors,
    and repeats none if the list does not.
   */
  lemma SortedRearranges(cs: seq<Conveyor>)
    ensures SortedFrom(SortBy(cs, Priority), cs)
    ensures forall x :: x in cs ==> x in SortBy(cs, Priority)
  {
    var sorted := SortBy(cs, Priority);
    SortBySortsAndPermutes(cs, Priority);
    if Distinct(cs) {
      SortByDistinct(cs, Priority);
    }
    assert forall k :: 0 <= k < |sorted| ==> sorted[k] in multiset(cs);
    assert forall x :: x in cs ==> x in multiset(sorted);
  }

  /** `conveyor['t'] = adjust_time_with_workers(conveyor['t'], conveyor['c'])` for every conveyor, in list order. */
  method AdjustTimes(a: array<Conveyor>)
    requires Distinct(a[..])
    requires forall k :: 0 <= k < a.Length ==> a[k].c != 0.0
    modifies a[..]
    ensures a[..] == old(a[..])
    ensures forall k :: 0 <= k < a.Length ==> a[k].t == old(a[k].t) / a[k].c
    ensures forall x :: x in a[..] ==> x.t == old(x.t) / x.c
  {
    for k := 0 to a.Length
      invariant forall p :: 0 <= p < k ==> a[p].t == old(a[p].t) / a[p].c
      invariant forall p :: k <= p < a.Length ==> a[p].t == old(a[p].t)
    {
      var d := AdjustTimeWithWorkers(a[k].t, a[k].c);
      a[k].t := d.value;
    }
    forall x | x in a[..] ensures x.t == old(x.t) / x.c {
      var k :| 0 <= k < a.Length && a[k] == x;
    }
  }

  // ---------------------------------------------------------------------------
  // The schedule builders: prepare the list, then run the loop of Schedules.

  /** `sequential_organization_schedule`. */
  method SequentialOrganizationSchedule(goods: int, a: array<Conveyor>) returns (schedule: Schedule)
    requires Distinct(a[..])
    requires forall k :: 0 <= k < a.Length ==> a[k].c != 0.0
    modifies a, a[..]
    ensures a[..] == SortBy(old(a[..]), Priority)
    ensures forall x :: x in old(a[..]) ==> x.t == old(x.t) / x.c
    ensures schedule.Keys == Keys(Ms(a[..]))
    ensures Distinct(Ms(a[..])) ==>
              forall j :: 0 <= j < a.Length ==> schedule[Ms(a[..])[j]] == SequentialRow(goods, Ts(a[..]), j)
  {
    PrepareConveyors(a);
    schedule := SequentialSchedule(goods, Ms(a[..]), Ts(a[..]));
  }

  /** `parallel_organization_schedule`. */
  method ParallelOrganizationSchedule(goods: int, a: array<Conveyor>) returns (schedule: Schedule)
    requires Distinct(a[..])
    requires forall k :: 0 <= k < a.Length ==> a[k].c != 0.0
    modifies a, a[..]
    ensures a[..] == SortBy(old(a[..]), Priority)
    ensures forall x :: x in old(a[..]) ==> x.t == old(x.t) / x.c
    ensures schedule.Keys == Keys(Ms(a[..]))
    ensures Distinct(Ms(a[..])) ==>
              forall j :: 0 <= j < a.Length ==> schedule[Ms(a[..])[j]] == ParallelRow(goods, Ts(a[..]), j)
  {
    PrepareConveyors(a);
    schedule := ParallelSchedule(goods, Ms(a[..]), Ts(a[..]));
  }

  /** `optimized_continuous_schedule`. */
  method OptimizedContinuousSchedule(goods: int, a: array<Conveyor>) returns (schedule: Schedule)
    requires Distinct(a[..])
    requires forall k :: 0 <= k < a.Length ==> a[k].c != 0.0
    modifies a, a[..]
    ensures a[..] == SortBy(old(a[..]), Priority)
    ensures forall x :: x in old(a[..]) ==> x.t == old(x.t) / x.c
    ensures schedule.Keys == Keys(Ms(a[..]))
    ensures Distinct(Ms(a[..])) ==>
              forall j :: 0 <= j < a.Length ==> schedule[Ms(a[..])[j]] == OptimizedRow(goods, Ts(a[..]), j)
  {
    PrepareConveyors(a);
    schedule := OptimizedSchedule(goods, Ms(a[..]), Ts(a[..]));
  }

  // ---------------------------------------------------------------------------
  // calculate_times.

  /** The Python exceptions `calculate_times` can raise. */
  datatype PyError = ZeroDivisionError | ValueError | IndexError

  /** The three totals: T_posl (sequential), T_par (parallel) and T_opt (optimized). */
  datatype Totals = Totals(posl: real, par: real, opt: real)

  /** The key of a plain `sorted` over reals. */
  function Identity(x: real): real {
    x
  }

  /**
    The value of `sorted(times)[1]` (SortedSecondIsSecondSmallest): the
    smallest time once one copy of the minimum is set aside.
   */
  function SecondSmallest(times: seq<real>): real
    requires |times| >= 2
  {
    MinOf(Drop(times, MinOf(times)))
  }

  /**
    The totals from the adjusted times, in the order the conveyors were
    sorted. With no conveyor `max` raises ValueError; with one, the index 1
    into the sorted times raises IndexError. Both happen whatever the number
    of goods, because the formatted T_par text evaluates them unconditionally.
   */
  function TimesTotals(goods: int, times: seq<real>): (r: Result<Totals, PyError>)
    ensures r == Failure(ValueError) <==> |times| == 0
    ensures r == Failure(IndexError) <==> |times| == 1
    ensures r.Success? <==> |times| >= 2
  {
    if |times| == 0 then Failure(ValueError)
    else if |times| == 1 then Failure(IndexError)
    else Success(Totals(Posl(goods, times), Par(goods, MaxOf(times), MinOf(times), SecondSmallest(times)), Opt(goods, times)))
  }

  /** T_posl: `sum(times) * goods`. */
  function Posl(goods: int, times: seq<real>): real {
    Sum(times) * (goods as real)
  }

  /**
    T_par from the maximum, the minimum and the second smallest time: three
    sums of goods copies each (`sum([max(times) for _ in range(goods)])` and
    so on).
   */
  function Par(goods: int, hi: real, lo: real, second: real): real {
    Sum(Repeat(hi, goods)) + Sum(Repeat(lo, goods)) + Sum(Repeat(second, goods))
  }

  /** T_opt: `sum(times) + (goods - 1) * max(times)`. */
  function Opt(goods: int, times: seq<real>): real
    requires |times| > 0
  {
    Sum(times) + ((goods - 1) as real) * MaxOf(times)
  }

  /** `calculate_times`: sorts the list in place, then divides each time by its worker count and totals. */
  method CalculateTimes(goods: int, a: array<Conveyor>) returns (r: Result<Totals, PyError>)
    modifies a
    ensures a[..] == SortBy(old(a[..]), Priority)
    ensures Ts(a[..]) == old(Ts(SortBy(a[..], Priority)))
    ensures !Staffed(Cs(a[..])) ==> r == Failure(ZeroDivisionError)
    ensures Staffed(Cs(a[..])) ==> r == TimesTotals(goods, Rates(a[..]))
  {
    SortByPriority(a);
    r := TotalsOfSorted(goods, a);
  }

  /**
    The rest of `calculate_times` on the sorted list: `t / c` for every
    conveyor, left to right, stopping with ZeroDivisionError at the first
    conveyor without workers, then the totals.
   */
  method TotalsOfSorted(goods: int, a: array<Conveyor>) returns (r: Result<Totals, PyError>)
    ensures !Staffed(Cs(a[..])) ==> r == Failure(ZeroDivisionError)
    ensures Staffed(Cs(a[..])) ==> r == TimesTotals(goods, Rates(a[..]))
  {
    var times := [];
    var k := 0;
    while k < a.Length && a[k].c != 0.0
      invariant k <= a.Length && |times| == k
      invariant forall p :: 0 <= p < k ==> a[p].c != 0.0 && times[p] == a[p].t / a[p].c
    {
      times := times + [a[k].t / a[k].c];
      k := k + 1;
    }
    if k < a.Length {
      assert Cs(a[..])[k] == 0.0;
      r := Failure(ZeroDivisionError);
    } else {
      assert Staffed(Cs(a[..]));
      assert times == Rates(a[..]);
      r := TimesTotals(goods, times);
    }
  }

  // ---------------------------------------------------------------------------
  // The totals against the schedules.

  /** T_par is goods * (max + min + second smallest), and 0 for no goods. */
  lemma ParTotalClosed(goods: int, hi: real, lo: real, mid: real)
    ensures Par(goods, hi, lo, mid) == if goods <= 0 then 0.0 else (goods as real) * (hi + lo + mid)
  {
    if goods > 0 {
      var n: nat := goods;
      ParIsTimes(n, hi, lo, mid);
      TimesIsProduct(n, hi + lo + mid);
    }
  }

  /** `sorted(times)` starts with the minimum and ends with the maximum. */
  lemma SortedEnds(times: seq<real>)
    requires |times| >= 1
    ensures var sorted := SortBy(times, Identity);
            |sorted| == |times| && sorted[0] == MinOf(times) && sorted[|times| - 1] == MaxOf(times)
  {
    var sorted := SortBy(times, Identity);
    SortBySortsAndPermutes(times, Identity);
    var n := |times|;
    forall k | 0 <= k < n ensures sorted[0] <= times[k] <= sorted[n - 1] {
      assert times[k] in multiset(sorted);
      var q :| 0 <= q < n && sorted[q] == times[k];
      assert Identity(sorted[0]) <= Identity(sorted[q]);
      assert Identity(sorted[q]) <= Identity(sorted[n - 1]);
    }
    assert sorted[0] in multiset(times) && sorted[n - 1] in multiset(times);
    MinOfUnique(times, sorted[0]);
    MaxOfUnique(times, sorted[n - 1]);
  }

  /** The second element of `sorted(times)` is SecondSmallest. */
  lemma SortedSecondIsSecondSmallest(times: seq<real>)
    requires |times| >= 2
    ensures SortBy(times, Identity)[1] == SecondSmallest(times)
  {
    SortedEnds(times);
    SortBySortsAndPermutes(times, Identity);
    SecondOfSorted(times, SortBy(times, Identity));
  }

  /** Any sorted rearrangement of times has SecondSmallest at position 1. */
  lemma SecondOfSorted(times: seq<real>, sorted: seq<real>)
    requires |times| >= 2 && |sorted| == |times|
    requires SortedBy(sorted, Identity) && multiset(sorted) == multiset(times)
    requires sorted[0] == MinOf(times)
    ensures sorted[1] == SecondSmallest(times)
  {
    var rest := Drop(times, sorted[0]);
    TailIsDrop(times, sorted);
    SortedSecondIsRestMinimum(sorted, rest);
  }

  /** What follows the head of a rearrangement is a rearrangement of what is left once the head is set aside. */
  lemma TailIsDrop(times: seq<real>, sorted: seq<real>)
    requires |sorted| > 0 && multiset(sorted) == multiset(times)
    ensures multiset(sorted[1..]) == multiset(Drop(times, sorted[0]))
  {
    var lo := sorted[0];
    var rest := Drop(times, lo);
    assert lo in multiset(times);
    assert lo in times;
    assert multiset(times) == multiset(rest) + multiset{lo};
    assert sorted == [lo] + sorted[1..];
    assert multiset(sorted) == multiset{lo} + multiset(sorted[1..]);
    assert multiset(sorted[1..]) == multiset(sorted) - multiset{lo};
    assert multiset(rest) == multiset(times) - multiset{lo};
  }

  /** In a sorted sequence, position 1 holds the minimum of what follows position 0. */
  lemma SortedSecondIsRestMinimum(sorted: seq<real>, rest: seq<real>)
    requires |sorted| >= 2 && SortedBy(sorted, Identity) && multiset(sorted[1..]) == multiset(rest)
    ensures |rest| > 0 && MinOf(rest) == sorted[1]
  {
    var n := |sorted|;
    forall k | 0 <= k < |rest| ensures sorted[1] <= rest[k] {
      assert rest[k] in multiset(sorted[1..]);
      var q :| 1 <= q < n && sorted[q] == rest[k];
      assert Identity(sorted[1]) <= Identity(sorted[q]);
    }
    assert sorted[1] in multiset(sorted[1..]);
    assert sorted[1] in multiset(rest);
    MinOfUnique(rest, sorted[1]);
  }

  /** The second smallest time lies between the minimum and the maximum. */
  lemma SecondSmallestBetween(times: seq<real>)
    requires |times| >= 2
    ensures SecondSmallest(times) in times
    ensures MinOf(times) <= SecondSmallest(times) <= MaxOf(times)
  {
    var lo := MinOf(times);
    var rest := Drop(times, lo);
    var second := MinOf(rest);
    assert second in multiset(rest);
    assert multiset(times) == multiset(rest) + multiset{lo};
    assert second in multiset(times);
    var k :| 0 <= k < |times| && times[k] == second;
  }

  /** T_posl is where the sequential plan ends. */
  lemma PoslIsSequentialMakespan(goods: int, times: seq<real>)
    ensures Posl(goods, times) == SeqStart(goods, times, |times|)
  {
    SequentialMakespan(goods, times);
  }

  /** With non-negative times and at least one item, T_opt is where the optimized plan ends. */
  lemma OptIsOptimizedMakespan(goods: int, times: seq<real>)
    requires |times| > 0 && NonNegative(times) && goods >= 1
    ensures Opt(goods, times) == OptFinish(times, goods - 1, |times| - 1)
  {
    var n := |times|;
    OptIsTimes(goods, times);
    OptFinishClosed(times, goods - 1, n - 1);
    assert times[..n] == times;
  }

  /** T_opt is the sum of the times plus the slowest time once for every item after the first. */
  lemma OptIsTimes(goods: int, times: seq<real>)
    requires |times| > 0 && goods >= 1
    ensures Opt(goods, times) == Sum(times) + Times(goods - 1, MaxOf(times))
  {
    var items: nat, slowest := goods - 1, MaxOf(times);
    TimesIsProduct(items, slowest);
    assert Opt(goods, times) == Sum(times) + (items as real) * slowest;
  }

  /**
    The parallel plan ends where the sequential plan ends: each item waits
    for the previous item's whole pass.
   */
  lemma ParallelMakespanIsSequential(goods: int, times: seq<real>)
    requires NonNegative(times) && goods >= 1
    ensures ParFinish(times, goods - 1) == SeqStart(goods, times, |times|)
  {
    ParFinishClosed(times, goods - 1);
    TimesIsProduct(goods, Sum(times));
    SequentialMakespan(goods, times);
  }

  /**
    For exactly three conveyors max + min + second smallest is the sum of
    all three times, so T_par is where the parallel plan ends.
   */
  lemma ParIsParallelMakespanForThree(goods: int, times: seq<real>)
    requires |times| == 3 && NonNegative(times) && goods >= 1
    ensures Par(goods, MaxOf(times), MinOf(times), SecondSmallest(times)) == ParFinish(times, goods - 1)
  {
    ThreeTimesSum(times);
    ParOfParts(goods, times, MaxOf(times), MinOf(times), SecondSmallest(times));
  }

  /** T_par from any three values adding up to the sum of the times is where the parallel plan ends. */
  lemma ParOfParts(goods: int, times: seq<real>, hi: real, lo: real, mid: real)
    requires NonNegative(times) && goods >= 1 && hi + lo + mid == Sum(times)
    ensures Par(goods, hi, lo, mid) == ParFinish(times, goods - 1)
  {
    ParIsTimes(goods, hi, lo, mid);
    ParFinishClosed(times, goods - 1);
  }

  /** T_par is hi + lo + mid added once per item. */
  lemma ParIsTimes(goods: nat, hi: real, lo: real, mid: real)
    ensures Par(goods, hi, lo, mid) == Times(goods, hi + lo + mid)
  {
    SumRepeatTimes(hi, goods);
    SumRepeatTimes(lo, goods);
    SumRepeatTimes(mid, goods);
    TimesAddThree(goods, hi, lo, mid);
  }

  /** n copies of v add up to v added n times. */
  lemma {:induction false} SumRepeatTimes(v: real, n: nat)
    ensures Sum(Repeat(v, n)) == Times(n, v)
  {
    if n > 0 {
      SumRepeatTimes(v, n - 1);
      assert Repeat(v, n) == Repeat(v, n - 1) + [v];
      SumAppend(Repeat(v, n - 1), v);
    }
  }

  /** Adding a, b and c n times each is adding a + b + c n times. */
  lemma {:induction false} TimesAddThree(n: nat, a: real, b: real, c: real)
    ensures Times(n, a) + Times(n, b) + Times(n, c) == Times(n, a + b + c)
  {
    if n > 0 {
      TimesAddThree(n - 1, a, b, c);
    }
  }

  /** Three numbers add up to their maximum, their minimum and the one in between. */
  lemma ThreeTimesSum(times: seq<real>)
    requires |times| == 3
    ensures Sum(times) == MaxOf(times) + MinOf(times) + SecondSmallest(times)
  {
    var lo := MinOf(times);
    var rest := Drop(times, lo);
    SumDrop(times, lo);
    MaxOfDrop(times, lo);
    SumOfTwo(rest);
  }

  /** Setting aside one element takes it off the sum. */
  lemma SumDrop(s: seq<real>, x: real)
    requires x in s
    ensures Sum(s) == Sum(Drop(s, x)) + x
  {
    var rest := Drop(s, x);
    assert multiset(s) == multiset(rest + [x]);
    SumPermutation(s, rest + [x]);
    SumAppend(rest, x);
  }

  /** Setting aside one copy of the minimum of two or more keeps the maximum. */
  lemma MaxOfDrop(s: seq<real>, lo: real)
    requires |s| >= 2 && lo == MinOf(s)
    ensures |Drop(s, lo)| > 0 && MaxOf(Drop(s, lo)) == MaxOf(s)
  {
    var rest := Drop(s, lo);
    var hi := MaxOf(s);
    assert multiset(s) == multiset(rest) + multiset{lo};
    forall k | 0 <= k < |rest| ensures rest[k] <= hi {
      assert rest[k] in multiset(s);
    }
    var top := MaxOf(rest);
    assert top in multiset(s);
    if hi == lo {
      assert top == hi;
    } else {
      assert hi in multiset(s);
      assert hi in multiset(rest);
    }
    MaxOfUnique(rest, hi);
  }

  /** Two numbers add up to their maximum and their minimum. */
  lemma SumOfTwo(s: seq<real>)
    requires |s| == 2
    ensures Sum(s) == MaxOf(s) + MinOf(s)
  {
    assert s[..1] == [s[0]];
    assert s[..1][..0] == [];
    assert Sum(s[..1]) == s[0];
    assert Sum(s) == s[0] + s[1];
    assert MaxOf(s) == Max(s[0], s[1]);
    assert MinOf(s) == Min(s[0], s[1]);
  }
}
