/**
 * Period allocation of the MRP calculator
 * (production_planning_system/models/mrp_calculator.py,
 * allocate_requirements_to_periods): the horizon totals of the requirement
 * tables are spread over the planning window in proportion to the planned
 * production of each period, or evenly when the window holds no positive
 * production.
 */
module Allocation {
  import opened Common
  import opened BomTables

  /** A production plan row: period, material and planned quantity. */
  datatype PlanEntry = PlanEntry(period: Period, material: Id, qty: real)

  /** One row of a by-period requirement table (the key holds material and period). */
  datatype Alloc = Alloc(mtype: MaterialType, description: string, demand: real, total: real)

  /** The plan as the BOM requirement functions read it: material and quantity. */
  function PlanRows(plan: seq<PlanEntry>): (r: seq<PlanRow>)
    ensures |r| == |plan|
    ensures forall i :: 0 <= i < |plan| ==> r[i] == PlanRow(plan[i].material, plan[i].qty)
  {
    seq(|plan|, i requires 0 <= i < |plan| => PlanRow(plan[i].material, plan[i].qty))
  }

  function PlanPeriods(plan: seq<PlanEntry>): set<Period>
  {
    set e | e in plan :: e.period
  }

  /** The planning window: the plan's distinct periods in order, cut to `planning_horizon`. */
  function Window(plan: seq<PlanEntry>, horizon: int): seq<Period>
  {
    Prefix(SortedPeriods(PlanPeriods(plan)), horizon)
  }

  /** The window is a chronological prefix of the plan's distinct periods, as long as the horizon allows. */
  lemma WindowSpec(plan: seq<PlanEntry>, horizon: int)
    ensures var w := Window(plan, horizon);
      && StrictlyIncreasing(w)
      && (forall p :: p in w ==> p in PlanPeriods(plan))
      && |w| == PrefixLength(|PlanPeriods(plan)|, horizon)
  {
    var all := SortedPeriods(PlanPeriods(plan));
    var w := Window(plan, horizon);
    assert w == all[..PrefixLength(|all|, horizon)];
    assert forall p :: p in w ==> p in all;
  }

  /** With no more periods than the horizon, the window keeps them all. */
  lemma WindowKeepsAll(plan: seq<PlanEntry>, horizon: int)
    requires |PlanPeriods(plan)| <= horizon
    ensures forall p :: p in PlanPeriods(plan) <==> p in Window(plan, horizon)
  {
    var all := SortedPeriods(PlanPeriods(plan));
    assert Window(plan, horizon) == all;
  }

  /** The window keeps the earliest periods: anything it drops is later than all it keeps. */
  lemma WindowKeepsEarliest(plan: seq<PlanEntry>, horizon: int, p: Period, q: Period)
    requires p in Window(plan, horizon) && q in PlanPeriods(plan) && q !in Window(plan, horizon)
    ensures Key(p) < Key(q)
  {
    var all := SortedPeriods(PlanPeriods(plan));
    var k := PrefixLength(|all|, horizon);
    var w := all[..k];
    assert Window(plan, horizon) == w;
    var i :| 0 <= i < k && w[i] == p;
    var j :| 0 <= j < |all| && all[j] == q;
    assert all[i] == p;
  }

  /** production_by_period: planned production per window period, over all materials. */
  function ProductionIn(plan: seq<PlanEntry>, w: seq<Period>): map<Period, real>
    decreases |plan|
  {
    if |plan| == 0 then map[]
    else
      var m := ProductionIn(plan[..|plan| - 1], w);
      var e := plan[|plan| - 1];
      if e.period in w then m[e.period := GetOr(m, e.period, 0.0) + e.qty] else m
  }

  /** total_production: planned production inside the window. */
  function TotalIn(plan: seq<PlanEntry>, w: seq<Period>): real
    decreases |plan|
  {
    if |plan| == 0 then 0.0
    else
      var e := plan[|plan| - 1];
      TotalIn(plan[..|plan| - 1], w) + (if e.period in w then e.qty else 0.0)
  }

  /** The sum of f over the periods of w (0 for a period f does not hold). */
  function SumOver(w: seq<Period>, f: map<Period, real>): real
    decreases |w|
  {
    if |w| == 0 then 0.0 else SumOver(w[..|w| - 1], f) + GetOr(f, w[|w| - 1], 0.0)
  }

  lemma {:induction false} SumOverEmpty(w: seq<Period>)
    ensures SumOver(w, map[]) == 0.0
    decreases |w|
  {
    if |w| > 0 {
      SumOverEmpty(w[..|w| - 1]);
    }
  }

  lemma {:induction false} SumOverUnchanged(w: seq<Period>, f: map<Period, real>, p: Period, x: real)
    requires p !in w
    ensures SumOver(w, f[p := x]) == SumOver(w, f)
    decreases |w|
  {
    if |w| > 0 {
      assert w[..|w| - 1] + [w[|w| - 1]] == w;
      SumOverUnchanged(w[..|w| - 1], f, p, x);
    }
  }

  /** Adding q to one period of a distinct window adds q to the window's sum. */
  lemma {:induction false} SumOverBump(w: seq<Period>, f: map<Period, real>, p: Period, q: real)
    requires Distinct(w) && p in w
    ensures SumOver(w, f[p := GetOr(f, p, 0.0) + q]) == SumOver(w, f) + q
    decreases |w|
  {
    var init := w[..|w| - 1];
    var g := f[p := GetOr(f, p, 0.0) + q];
    assert init + [w[|w| - 1]] == w;
    if w[|w| - 1] == p {
      assert p !in init by {
        forall i | 0 <= i < |init| ensures init[i] != p {
          assert w[i] != w[|w| - 1];
        }
      }
      SumOverUnchanged(init, f, p, GetOr(f, p, 0.0) + q);
    } else {
      assert p in init;
      SumOverBump(init, f, p, q);
    }
  }

  /** The per-period production adds up to the window's total production. */
  lemma {:induction false} ProductionConserved(plan: seq<PlanEntry>, w: seq<Period>)
    requires Distinct(w)
    ensures SumOver(w, ProductionIn(plan, w)) == TotalIn(plan, w)
    decreases |plan|
  {
    if |plan| == 0 {
      SumOverEmpty(w);
    } else {
      var init := plan[..|plan| - 1];
      var e := plan[|plan| - 1];
      ProductionConserved(init, w);
      if e.period in w {
        SumOverBump(w, ProductionIn(init, w), e.period, e.qty);
      }
    }
  }

  /** period_demand: the proportional share, or an even split when the window has no positive production. */
  function PeriodDemand(total: real, prod: real, totalProd: real, count: nat): real
    requires count > 0
  {
    if totalProd > 0.0 then total * (prod / totalProd) else total / count as real
  }

  /** One allocated row: the requirement's type, description and total, and its period share. */
  function AllocCell(r: Requirement, p: Period, prod: map<Period, real>, totalProd: real, count: nat): Alloc
    requires count > 0
  {
    Alloc(r.mtype, r.description, PeriodDemand(r.qty, GetOr(prod, p, 0.0), totalProd, count), r.qty)
  }

  /** The by-period table allocate_requirements_to_periods builds from one requirement table. */
  function AllocationOf(reqs: map<Id, Requirement>, plan: seq<PlanEntry>, horizon: int): map<(Id, Period), Alloc>
  {
    var w := Window(plan, horizon);
    var prod := ProductionIn(plan, w);
    var total := TotalIn(plan, w);
    map m, p | m in reqs && p in w :: (m, p) := AllocCell(reqs[m], p, prod, total, |w|)
  }

  /** The demand a by-period table holds for m in period p (0 when it has no such row). */
  function DemandOf(a: map<(Id, Period), Alloc>, m: Id, p: Period): real
  {
    if (m, p) in a then a[(m, p)].demand else 0.0
  }

  /** The demands for m over the periods of w. */
  function MaterialDemand(a: map<(Id, Period), Alloc>, m: Id, w: seq<Period>): real
    decreases |w|
  {
    if |w| == 0 then 0.0 else MaterialDemand(a, m, w[..|w| - 1]) + DemandOf(a, m, w[|w| - 1])
  }

  /**
   * Exactly one row per (requirement, window period), carrying the
   * requirement's type, description and total, and the period share of
   * PeriodDemand (see PeriodDemandScales for what the share is).
   */
  lemma AllocationShape(reqs: map<Id, Requirement>, plan: seq<PlanEntry>, horizon: int, m: Id, p: Period)
    ensures var a := AllocationOf(reqs, plan, horizon);
      var w := Window(plan, horizon);
      && ((m, p) in a <==> m in reqs && p in w)
      && ((m, p) in a ==>
        var row := a[(m, p)];
        && row.mtype == reqs[m].mtype && row.description == reqs[m].description && row.total == reqs[m].qty
        && row.demand == PeriodDemand(reqs[m].qty, GetOr(ProductionIn(plan, w), p, 0.0), TotalIn(plan, w), |w|))
  {
  }

  /**
   * The share of a period is proportional to its production when the
   * window's production is positive (demand / total = production / all
   * production), and an even split otherwise.
   */
  lemma PeriodDemandScales(t: real, x: real, total: real, count: nat)
    requires count > 0
    ensures total > 0.0 ==> PeriodDemand(t, x, total, count) * total == t * x
    ensures total <= 0.0 ==> PeriodDemand(t, x, total, count) * count as real == t
  {
    var d := PeriodDemand(t, x, total, count);
    if total > 0.0 {
      assert d == t * (x / total);
      assert (x / total) * total == x;
      assert d * total == t * ((x / total) * total);
    }
  }

  lemma {:induction false} ProportionalSum(a: map<(Id, Period), Alloc>, m: Id, w: seq<Period>, n: nat,
                                           total: real, prod: map<Period, real>, totalProd: real)
    requires n <= |w| && totalProd > 0.0
    requires forall i :: 0 <= i < |w| ==> DemandOf(a, m, w[i]) == PeriodDemand(total, GetOr(prod, w[i], 0.0), totalProd, |w|)
    ensures MaterialDemand(a, m, w[..n]) == total * (SumOver(w[..n], prod) / totalProd)
  {
    if n > 0 {
      var s := SumOver(w[..n - 1], prod);
      var x := GetOr(prod, w[n - 1], 0.0);
      assert DemandOf(a, m, w[n - 1]) == total * (x / totalProd);
      ProportionalSum(a, m, w, n - 1, total, prod, totalProd);
      assert w[..n][..n - 1] == w[..n - 1];
      assert SumOver(w[..n], prod) == s + x;
      assert MaterialDemand(a, m, w[..n]) == MaterialDemand(a, m, w[..n - 1]) + DemandOf(a, m, w[n - 1]);
      ShareAdd(total, s, x, totalProd);
    }
  }

  lemma ShareAdd(t: real, s: real, x: real, d: real)
    requires d > 0.0
    ensures t * (s / d) + t * (x / d) == t * ((s + x) / d)
  {
    assert s / d + x / d == (s + x) / d;
  }

  lemma {:induction false} EvenSum(a: map<(Id, Period), Alloc>, m: Id, w: seq<Period>, n: nat, total: real,
                                   prod: map<Period, real>, totalProd: real)
    requires n <= |w| && |w| > 0 && totalProd <= 0.0
    requires forall i :: 0 <= i < |w| ==> DemandOf(a, m, w[i]) == PeriodDemand(total, GetOr(prod, w[i], 0.0), totalProd, |w|)
    ensures MaterialDemand(a, m, w[..n]) == n as real * (total / |w| as real)
  {
    if n > 0 {
      assert DemandOf(a, m, w[n - 1]) == total / |w| as real;
      EvenSum(a, m, w, n - 1, total, prod, totalProd);
      assert w[..n][..n - 1] == w[..n - 1];
    }
  }

  lemma ProportionalFinish(md: real, t: real, s: real, total: real)
    requires total > 0.0 && s == total && md == t * (s / total)
    ensures md == t
  {
    assert s / total == 1.0;
  }

  lemma EvenFinish(md: real, t: real, n: nat)
    requires n > 0 && md == n as real * (t / n as real)
    ensures md == t
  {
  }

  /** Proportional shares of a window whose production adds up to totalProd add up to the total. */
  lemma ProportionalTotal(a: map<(Id, Period), Alloc>, m: Id, w: seq<Period>,
                          total: real, prod: map<Period, real>, totalProd: real)
    requires totalProd > 0.0 && SumOver(w, prod) == totalProd
    requires forall i :: 0 <= i < |w| ==> DemandOf(a, m, w[i]) == PeriodDemand(total, GetOr(prod, w[i], 0.0), totalProd, |w|)
    ensures MaterialDemand(a, m, w) == total
  {
    ProportionalSum(a, m, w, |w|, total, prod, totalProd);
    assert w[..|w|] == w;
    ProportionalFinish(MaterialDemand(a, m, w), total, SumOver(w, prod), totalProd);
  }

  /** Even shares of a non-empty window add up to the total. */
  lemma EvenTotal(a: map<(Id, Period), Alloc>, m: Id, w: seq<Period>,
                  total: real, prod: map<Period, real>, totalProd: real)
    requires |w| > 0 && totalProd <= 0.0
    requires forall i :: 0 <= i < |w| ==> DemandOf(a, m, w[i]) == PeriodDemand(total, GetOr(prod, w[i], 0.0), totalProd, |w|)
    ensures MaterialDemand(a, m, w) == total
  {
    EvenSum(a, m, w, |w|, total, prod, totalProd);
    assert w[..|w|] == w;
    EvenFinish(MaterialDemand(a, m, w), total, |w|);
  }

  /** The window of a plan never repeats a period. */
  lemma WindowDistinct(plan: seq<PlanEntry>, horizon: int)
    ensures Distinct(Window(plan, horizon))
  {
    var w := Window(plan, horizon);
    WindowSpec(plan, horizon);
    forall i, j | 0 <= i < j < |w| ensures w[i] != w[j] {
      assert Key(w[i]) < Key(w[j]);
    }
  }

  /** Every window period of m holds PeriodDemand's share. */
  lemma AllocationDemands(reqs: map<Id, Requirement>, plan: seq<PlanEntry>, horizon: int, m: Id)
    requires m in reqs
    ensures var w := Window(plan, horizon);
      forall i :: 0 <= i < |w| ==>
        DemandOf(AllocationOf(reqs, plan, horizon), m, w[i]) ==
        PeriodDemand(reqs[m].qty, GetOr(ProductionIn(plan, w), w[i], 0.0), TotalIn(plan, w), |w|)
  {
    var w := Window(plan, horizon);
    forall i | 0 <= i < |w|
      ensures DemandOf(AllocationOf(reqs, plan, horizon), m, w[i]) ==
        PeriodDemand(reqs[m].qty, GetOr(ProductionIn(plan, w), w[i], 0.0), TotalIn(plan, w), |w|)
    {
      AllocationShape(reqs, plan, horizon, m, w[i]);
    }
  }

  /** Allocation conserves demand: one material's period demands add up to its horizon total. */
  lemma AllocationConserves(reqs: map<Id, Requirement>, plan: seq<PlanEntry>, horizon: int, m: Id)
    requires m in reqs && |Window(plan, horizon)| > 0
    ensures MaterialDemand(AllocationOf(reqs, plan, horizon), m, Window(plan, horizon)) == reqs[m].qty
  {
    var a := AllocationOf(reqs, plan, horizon);
    var w := Window(plan, horizon);
    var prod := ProductionIn(plan, w);
    var total := TotalIn(plan, w);
    var t := reqs[m].qty;
    AllocationDemands(reqs, plan, horizon, m);
    if total > 0.0 {
      WindowDistinct(plan, horizon);
      ProductionConserved(plan, w);
      ProportionalTotal(a, m, w, t, prod, total);
    } else {
      EvenTotal(a, m, w, t, prod, total);
    }
  }
}
