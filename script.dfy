/**
  The module-level script of CalculationConveyorProduction/visualization.py:
  the totals are computed on the conveyor list, then each of the three
  schedule builders is handed `conveyors.copy()`.

  `list.copy()` copies the list, not the conveyors in it, so every builder
  overwrites the time of the same conveyor objects: the sequential plan is
  built from t / c, the parallel plan from t / c / c and the optimized plan
  from t / c / c / c. ScriptAsWritten models that, ShallowCopyCounterexample
  exhibits the difference on two conveyors with two workers each, and
  ScriptCorrected hands every builder conveyors of its own, so that every
  plan is built from the times that calculate_times totals.
 */
module ConveyorScript {
  import opened Wrappers
  import opened Sequences
  import opened Schedules
  import opened Conveyors
  import opened ConveyorPlans

  /** `t / c` for every conveyor is its time divided once by its worker count. */
  lemma RatesAreDividedOnce(cs: seq<Conveyor>)
    requires Staffed(Cs(cs))
    ensures forall k :: 0 <= k < |cs| ==> cs[k].c != 0.0
    ensures Rates(cs) == DividedBy(Ts(cs), Cs(cs), 1)
  {
    assert forall k :: 0 <= k < |cs| ==> Cs(cs)[k] != 0.0;
    var t := DividedBy(Ts(cs), Cs(cs), 1);
    forall k | 0 <= k < |cs| ensures Rates(cs)[k] == t[k] {
      assert Divided(cs[k].t, cs[k].c, 1) == cs[k].t / cs[k].c;
    }
  }

  /** Times that are ts divided pointwise by the worker counts. */
  lemma TimesDividedOnce(cs: seq<Conveyor>, ts: seq<real>)
    requires |ts| == |cs| && Staffed(Cs(cs))
    requires forall k :: 0 <= k < |cs| ==> cs[k].t == ts[k] / cs[k].c
    ensures Ts(cs) == DividedBy(ts, Cs(cs), 1)
  {
    var t := DividedBy(ts, Cs(cs), 1);
    forall k | 0 <= k < |cs| ensures Ts(cs)[k] == t[k] {
      assert Divided(ts[k], cs[k].c, 1) == ts[k] / cs[k].c;
    }
  }

  /** Runs the chosen builder on the list b. */
  method Build(plan: Plan, goods: int, b: array<Conveyor>) returns (schedule: Schedule)
    requires Distinct(b[..])
    requires forall k :: 0 <= k < b.Length ==> b[k].c != 0.0
    modifies b, b[..]
    ensures b[..] == SortBy(old(b[..]), Priority)
    ensures forall x :: x in old(b[..]) ==> x.t == old(x.t) / x.c
    ensures Builds(schedule, plan, goods, Ms(b[..]), Ts(b[..]))
  {
    match plan {
      case Sequential => schedule := SequentialOrganizationSchedule(goods, b);
      case Parallel => schedule := ParallelOrganizationSchedule(goods, b);
      case Optimized => schedule := OptimizedContinuousSchedule(goods, b);
    }
  }

  /**
    A builder on a list cs already sorted by number, whose conveyors have
    the times ts: the sort leaves the list as it is, every conveyor's time
    is divided by its worker count, and the plan is built from those times.
   */
  method BuildSorted(plan: Plan, goods: int, b: array<Conveyor>, ghost cs: seq<Conveyor>, ghost ts: seq<real>)
    returns (schedule: Schedule)
    requires b[..] == cs && Distinct(cs) && SortedBy(cs, Priority) && Staffed(Cs(cs)) && Ts(cs) == ts
    modifies b, b[..]
    ensures b[..] == cs
    ensures Ts(cs) == DividedBy(ts, Cs(cs), 1)
    ensures Builds(schedule, plan, goods, Ms(cs), DividedBy(ts, Cs(cs), 1))
  {
    SortBySortedIsIdentity(cs, Priority);
    forall k | 0 <= k < b.Length ensures b[k].c != 0.0 {
      assert b[k] == cs[k] && Cs(cs)[k] == cs[k].c;
    }
    schedule := Build(plan, goods, b);
    assert b[..] == cs;
    forall k | 0 <= k < |cs| ensures cs[k].t == ts[k] / cs[k].c {
      assert cs[k] in old(b[..]) && old(cs[k].t) == ts[k];
    }
    TimesDividedOnce(cs, ts);
  }

  /** `list.copy()`: a new list holding the same conveyors. */
  method ShallowCopy(a: array<Conveyor>) returns (b: array<Conveyor>)
    ensures fresh(b) && b[..] == a[..]
  {
    b := new Conveyor[a.Length](k requires 0 <= k < a.Length reads a => a[k]);
    assert b[..] == a[..];
  }

  /**
    A builder on `conveyors.copy()` of a list cs already sorted by number,
    whose conveyors have the times ts divided n times by their worker
    counts: the list keeps its order, the times are divided once more, and
    the plan is built from ts divided n + 1 times.
   */
  method BuildOnShallowCopy(plan: Plan, goods: int, a: array<Conveyor>, ghost cs: seq<Conveyor>, ghost ts: seq<real>, ghost n: nat)
    returns (schedule: Schedule)
    requires a[..] == cs && Distinct(cs) && SortedBy(cs, Priority) && Staffed(Cs(cs))
    requires |ts| == |cs| && Ts(cs) == DividedBy(ts, Cs(cs), n)
    modifies a[..]
    ensures a[..] == cs
    ensures Ts(cs) == DividedBy(ts, Cs(cs), n + 1)
    ensures Builds(schedule, plan, goods, Ms(cs), DividedBy(ts, Cs(cs), n + 1))
  {
    DividedByAgain(ts, Cs(cs), n);
    var b := ShallowCopy(a);
    assert forall k :: 0 <= k < b.Length ==> b[k] as object != a as object;
    schedule := BuildSorted(plan, goods, b, cs, DividedBy(ts, Cs(cs), n));
  }

  /**
    The three builders of lines 150-152, each on `conveyors.copy()` of a
    list cs already sorted by number, whose conveyors have the times ts. The
    shared conveyors carry each builder's division on to the next: the
    sequential plan is built from ts divided once, the parallel plan from ts
    divided twice and the optimized plan from ts divided three times, which
    is what the conveyors are left with.
   */
  method PlansOnShallowCopies(goods: int, a: array<Conveyor>, ghost cs: seq<Conveyor>, ghost ts: seq<real>)
    returns (seqS: Schedule, parS: Schedule, optS: Schedule)
    requires a[..] == cs && Distinct(cs) && SortedBy(cs, Priority) && Staffed(Cs(cs)) && Ts(cs) == ts
    modifies a[..]
    ensures a[..] == cs
    ensures ShallowPlans(seqS, parS, optS, goods, Ms(cs), Cs(cs), Ts(cs), ts)
  {
    assert DividedBy(ts, Cs(cs), 0) == ts;
    seqS := BuildOnShallowCopy(Sequential, goods, a, cs, ts, 0);
    parS := BuildOnShallowCopy(Parallel, goods, a, cs, ts, 1);
    optS := BuildOnShallowCopy(Optimized, goods, a, cs, ts, 2);
  }

  /**
    Line 149: calculate_times sorts the list, a rearrangement of the same
    conveyors, and only reads the conveyors, so they keep their times T;
    when it returns, the totals are those of every time divided once by its
    worker count.
   */
  method TotalsStage(goods: int, a: array<Conveyor>, ghost cs: seq<Conveyor>, ghost T: seq<real>)
    returns (r: Result<Totals, PyError>)
    requires a[..] == cs && T == Ts(SortBy(cs, Priority))
    modifies a
    ensures SortedFrom(a[..], cs)
    ensures Ts(a[..]) == T
    ensures Totalled(r, goods, Cs(a[..]), T)
  {
    SortedRearranges(cs);
    r := CalculateTimes(goods, a);
    if Staffed(Cs(a[..])) {
      RatesAreDividedOnce(a[..]);
    }
  }

  /**
    Lines 149-152 as written, with T the times of the list sorted by
    number. When calculate_times raises, the script stops there and the
    conveyors keep their times. Otherwise the totals and the sequential plan
    come from T divided once by the worker counts, the parallel plan from T
    divided twice, the optimized plan from T divided three times, and the
    conveyors are left with T divided three times.
   */
  method ScriptAsWritten(goods: int, a: array<Conveyor>, ghost T: seq<real>)
    returns (r: Result<Totals, PyError>, seqS: Schedule, parS: Schedule, optS: Schedule)
    requires Distinct(a[..]) && T == Ts(SortBy(a[..], Priority))
    modifies a, a[..]
    ensures a[..] == SortBy(old(a[..]), Priority)
    ensures Totalled(r, goods, Cs(a[..]), T)
    ensures r.Failure? ==> Ts(a[..]) == T
    ensures r.Success? ==> ShallowPlans(seqS, parS, optS, goods, Ms(a[..]), Cs(a[..]), Ts(a[..]), T)
  {
    seqS, parS, optS := map[], map[], map[];
    r := TotalsStage(goods, a, a[..], T);
    if r.Success? {
      seqS, parS, optS := PlansOnShallowCopies(goods, a, a[..], T);
    }
  }

  /** Times 8 and 8 shared by 2 workers each, divided once and twice. */
  lemma EightsHalved(ws: seq<real>, T: seq<real>)
    requires ws == [2.0, 2.0] && T == [8.0, 8.0]
    ensures Staffed(ws)
    ensures DividedBy(T, ws, 1) == [4.0, 4.0] && DividedBy(T, ws, 2) == [2.0, 2.0]
  {
    assert Divided(8.0, 2.0, 1) == 4.0;
    assert Divided(8.0, 2.0, 2) == 2.0;
  }

  /** With times 4 and 4 and one item, T_posl is 8. */
  lemma TotalsOfFours(r: Result<Totals, PyError>, times: seq<real>)
    requires times == [4.0, 4.0] && r == TimesTotals(1, times)
    ensures r.Success? && r.value.posl == 8.0
  {
    assert Sum(times) == 8.0 by {
      assert times[..1] == [4.0];
      assert times[..1][..0] == [];
    }
  }

  /** With times 2 and 2 and one item, the parallel plan gives conveyor 1 one interval of length 2. */
  lemma ParallelOfTwos(parS: Schedule, ms: seq<int>)
    requires ms == [1, 2] && Builds(parS, Parallel, 1, ms, [2.0, 2.0])
    ensures 1 in parS && |parS[1]| == 1 && parS[1][0].length == 2.0
  {
    assert ms[0] == 1;
    RowCases(1, [2.0, 2.0], 0);
  }

  /**
    Two conveyors with 8 time units of work and 2 workers each, one item:
    calculate_times counts 8 / 2 = 4 per conveyor, so T_posl = 8, while the
    parallel plan gives the first conveyor an interval of length 8 / 2 / 2 = 2.
   */
  method ShallowCopyCounterexample() returns (posl: real, parallelLength: real)
    ensures posl == 8.0 && parallelLength == 2.0
  {
    var first := new Conveyor(1, 8.0, 2.0);
    var second := new Conveyor(2, 8.0, 2.0);
    var a := new Conveyor[2][first, second];
    ghost var cs := [first, second];
    assert a[..] == cs;
    SortBySortedIsIdentity(cs, Priority);
    ghost var ms, ws, ts := Ms(cs), Cs(cs), Ts(cs);
    assert ms == [1, 2] && ws == [2.0, 2.0] && ts == [8.0, 8.0];
    var r: Result<Totals, PyError>, seqS: Schedule, parS: Schedule, optS: Schedule;
    r, seqS, parS, optS := ScriptAsWritten(1, a, ts);
    assert a[..] == cs;
    EightsHalved(ws, ts);
    TotalsOfFours(r, DividedBy(ts, ws, 1));
    ParallelOfTwos(parS, ms);
    posl := r.value.posl;
    parallelLength := parS[1][0].length;
  }

  /**
    A copy of the list with conveyors of its own: same numbers, times and
    worker counts, none shared with the original.
   */
  method DeepCopy(a: array<Conveyor>) returns (b: array<Conveyor>)
    ensures fresh(b) && b.Length == a.Length
    ensures forall k :: 0 <= k < b.Length ==> fresh(b[k])
    ensures Distinct(b[..])
    ensures Ms(b[..]) == Ms(a[..]) && Ts(b[..]) == Ts(a[..]) && Cs(b[..]) == Cs(a[..])
  {
    var cs: seq<Conveyor> := [];
    for k := 0 to a.Length
      invariant |cs| == k
      invariant forall p :: 0 <= p < k ==> fresh(cs[p])
      invariant forall p :: 0 <= p < k ==> cs[p].m == a[p].m && cs[p].t == a[p].t && cs[p].c == a[p].c
      invariant Distinct(cs)
    {
      var c := new Conveyor(a[k].m, a[k].t, a[k].c);
      cs := cs + [c];
    }
    b := new Conveyor[|cs|](k requires 0 <= k < |cs| => cs[k]);
    assert b[..] == cs;
  }

  /**
    A builder on copies of the conveyors of a list cs already sorted by
    number, whose conveyors have the times ts: the list and its conveyors
    are left alone, and the plan is built from ts divided once by the
    worker counts.
   */
  method BuildOnDeepCopy(plan: Plan, goods: int, a: array<Conveyor>, ghost cs: seq<Conveyor>, ghost ts: seq<real>)
    returns (schedule: Schedule)
    requires a[..] == cs && SortedBy(cs, Priority) && Staffed(Cs(cs)) && Ts(cs) == ts
    ensures Builds(schedule, plan, goods, Ms(cs), DividedBy(ts, Cs(cs), 1))
  {
    var b := DeepCopy(a);
    ghost var bs := b[..];
    assert SortedBy(bs, Priority) by {
      assert forall k :: 0 <= k < |bs| ==> Priority(bs[k]) == Priority(cs[k]) by {
        assert forall k :: 0 <= k < |bs| ==> bs[k].m == Ms(bs)[k] == Ms(cs)[k] == cs[k].m;
      }
    }
    assert forall k :: 0 <= k < b.Length ==> b[k] as object != a as object;
    schedule := BuildSorted(plan, goods, b, bs, ts);
  }

  /**
    The three builders, each on conveyors of its own, for a list cs already
    sorted by number whose conveyors have the times ts: the list and its
    conveyors are left alone and all three plans are built from ts divided
    once by the worker counts.
   */
  method PlansOnDeepCopies(goods: int, a: array<Conveyor>, ghost cs: seq<Conveyor>, ghost ts: seq<real>)
    returns (seqS: Schedule, parS: Schedule, optS: Schedule)
    requires a[..] == cs && SortedBy(cs, Priority) && Staffed(Cs(cs)) && Ts(cs) == ts
    ensures DeepPlans(seqS, parS, optS, goods, Ms(cs), Cs(cs), ts)
  {
    seqS := BuildOnDeepCopy(Sequential, goods, a, cs, ts);
    parS := BuildOnDeepCopy(Parallel, goods, a, cs, ts);
    optS := BuildOnDeepCopy(Optimized, goods, a, cs, ts);
  }

  /**
    Lines 149-152 with every builder given conveyors of its own. With T the
    times of the list sorted by number: the list is sorted, its conveyors
    keep their times, and when calculate_times succeeds the totals and all
    three plans come from T divided once by the worker counts, so T_posl is
    where the sequential plan ends.
   */
  method ScriptCorrected(goods: int, a: array<Conveyor>, ghost T: seq<real>)
    returns (r: Result<Totals, PyError>, seqS: Schedule, parS: Schedule, optS: Schedule)
    requires T == Ts(SortBy(a[..], Priority))
    modifies a
    ensures a[..] == SortBy(old(a[..]), Priority)
    ensures Ts(a[..]) == T
    ensures Totalled(r, goods, Cs(a[..]), T)
    ensures r.Success? ==> DeepPlans(seqS, parS, optS, goods, Ms(a[..]), Cs(a[..]), T)
  {
    r := TotalsStage(goods, a, a[..], T);
    seqS, parS, optS := PlansIfTotalled(goods, a, r, T);
  }

  /** The builders of lines 150-152 on copies of their own, run only when calculate_times succeeded. */
  method PlansIfTotalled(goods: int, a: array<Conveyor>, r: Result<Totals, PyError>, ghost T: seq<real>)
    returns (seqS: Schedule, parS: Schedule, optS: Schedule)
    requires SortedBy(a[..], Priority) && Ts(a[..]) == T && Totalled(r, goods, Cs(a[..]), T)
    ensures r.Success? ==> DeepPlans(seqS, parS, optS, goods, Ms(a[..]), Cs(a[..]), T)
  {
    seqS, parS, optS := map[], map[], map[];
    if r.Success? {
      seqS, parS, optS := PlansOnDeepCopies(goods, a, a[..], T);
    }
  }

  /**
    When calculate_times succeeds, T_posl is where the sequential plan built
    from the same times ends.
   */
  lemma TotalledPoslIsSequentialMakespan(r: Result<Totals, PyError>, goods: int, ws: seq<real>, T: seq<real>)
    requires Totalled(r, goods, ws, T) && r.Success?
    ensures |ws| == |T| && Staffed(ws)
    ensures r.value.posl == SeqStart(goods, DividedBy(T, ws, 1), |T|)
  {
    PoslIsSequentialMakespan(goods, DividedBy(T, ws, 1));
  }
}
