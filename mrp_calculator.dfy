/**
 * The MRPCalculator class (production_planning_system/models/mrp_calculator.py):
 * the loaded plan, inventories and supplier table, the requirement tables
 * and the purchase plan as fields, and the methods that compute from them.
 * Every loop of the source is a method here proved against the functions of
 * the Allocation and Purchasing modules.
 */
module Mrp {
  import opened Common
  import opened Netting
  import opened Calendar
  import opened BomTables
  import opened Allocation
  import opened Purchasing
  import Bom

  /** The stored parameters before set_mrp_parameters merges the caller's over them. */
  const DefaultParameters: map<string, int> :=
    map["safety_stock_days" := 15, "max_inventory_days" := 60, "order_multiple" := 1, "planning_horizon" := 6]

  /** mrp_parameters.get('planning_horizon', 6). */
  function PlanningHorizon(params: map<string, int>): int
  {
    GetOr(params, "planning_horizon", 6)
  }

  /** The safety stock days and order multiple the netting reads, with the same fallbacks. */
  function SettingsOf(params: map<string, int>): Settings
  {
    Settings(GetOr(params, "safety_stock_days", 15), GetOr(params, "order_multiple", 1))
  }

  /**
   * After set_mrp_parameters every parameter the planner reads is the
   * caller's value when given and the documented default otherwise; the
   * fallbacks of the readers agree with the stored defaults, so reading an
   * unset parameter gives the same as reading the merged one.
   */
  lemma MergedParameters(given: map<string, int>)
    ensures PlanningHorizon(Merge(DefaultParameters, given)) == GetOr(given, "planning_horizon", 6)
    ensures SettingsOf(Merge(DefaultParameters, given)) ==
      Settings(GetOr(given, "safety_stock_days", 15), GetOr(given, "order_multiple", 1))
    ensures Merge(DefaultParameters, given)["max_inventory_days"] == GetOr(given, "max_inventory_days", 60)
    ensures PlanningHorizon(map[]) == PlanningHorizon(DefaultParameters)
    ensures SettingsOf(map[]) == SettingsOf(DefaultParameters)
  {
  }

  /** The two requirement tables calculate_requirements derives from a BOM manager's state. */
  function RequirementsFor(bom: Bom.BomManager?, plan: Option<seq<PlanEntry>>): Option<(map<Id, Requirement>, map<Id, Requirement>)>
    reads bom
  {
    if bom == null || plan.None? then None
    else
      var raw := RequirementsSpec(bom.graph, bom.types, bom.info, PlanRows(plan.value), Raw);
      var semi := RequirementsSpec(bom.graph, bom.types, bom.info, PlanRows(plan.value), SemiFinished);
      if raw.None? || semi.None? then None else Some((raw.value, semi.value))
  }

  /** The by-period tables of both requirement tables and the window they share. */
  datatype Allocated = Allocated(raw: map<(Id, Period), Alloc>, semi: map<(Id, Period), Alloc>, window: seq<Period>)

  /** allocate_requirements_to_periods: None unless both requirement tables and the plan exist. */
  function Allocate(raw: Option<map<Id, Requirement>>, semi: Option<map<Id, Requirement>>,
                    plan: Option<seq<PlanEntry>>, horizon: int): Option<Allocated>
  {
    if raw.None? || semi.None? || plan.None? then None
    else Some(Allocated(AllocationOf(raw.value, plan.value, horizon), AllocationOf(semi.value, plan.value, horizon),
                        Window(plan.value, horizon)))
  }

  /** optimize_purchase_plan: the purchase plan over the raw by-period table. */
  function OptimizedPlan(raw: Option<map<Id, Requirement>>, semi: Option<map<Id, Requirement>>, plan: Option<seq<PlanEntry>>,
                         rawPool: Option<seq<StockRow>>, suppliers: Option<seq<SupplierRow>>,
                         params: map<string, int>): Option<map<(Id, Period), PurchaseRow>>
  {
    if raw.None? then None
    else match Allocate(raw, semi, plan, PlanningHorizon(params))
      case None => None
      case Some(al) => PurchasePlan(raw.value, al.raw, al.window, rawPool, suppliers, SettingsOf(params))
  }

  /** generate_semifinished_production_plan: the production plan over the semi-finished by-period table. */
  function SemiPlanFor(raw: Option<map<Id, Requirement>>, semi: Option<map<Id, Requirement>>, plan: Option<seq<PlanEntry>>,
                       semiPool: Option<seq<StockRow>>, params: map<string, int>): Option<map<(Id, Period), SemiRow>>
  {
    if semi.None? then None
    else match Allocate(raw, semi, plan, PlanningHorizon(params))
      case None => None
      case Some(al) => SemiPlan(semi.value, al.semi, al.window, semiPool, SettingsOf(params).orderMultiple)
  }

  /** The sum of the costs of the rows in keys. */
  ghost function CostSum(plan: map<(Id, Period), PurchaseRow>, keys: set<(Id, Period)>): real
    requires keys <= plan.Keys
    decreases keys
  {
    if keys == {} then 0.0
    else
      var k :| k in keys;
      plan[k].cost + CostSum(plan, keys - {k})
  }

  /** The sum does not depend on the order the rows are added in. */
  lemma CostSumRemove(plan: map<(Id, Period), PurchaseRow>, keys: set<(Id, Period)>, k: (Id, Period))
    requires keys <= plan.Keys && k in keys
    ensures CostSum(plan, keys) == plan[k].cost + CostSum(plan, keys - {k})
    decreases keys
  {
    var j :| j in keys && CostSum(plan, keys) == plan[j].cost + CostSum(plan, keys - {j});
    if j != k {
      CostSumRemove(plan, keys - {j}, k);
      CostSumRemove(plan, keys - {k}, j);
      assert keys - {j} - {k} == keys - {k} - {j};
    }
  }

  /** The total purchase cost of a plan: the sum of its rows' costs. */
  ghost function TotalCost(plan: map<(Id, Period), PurchaseRow>): real
  {
    CostSum(plan, plan.Keys)
  }

  lemma {:induction false} CostSumNonNegative(plan: map<(Id, Period), PurchaseRow>, keys: set<(Id, Period)>)
    requires keys <= plan.Keys
    requires forall k :: k in keys ==> plan[k].cost >= 0.0
    ensures CostSum(plan, keys) >= 0.0
    decreases keys
  {
    if keys != {} {
      var k :| k in keys;
      CostSumRemove(plan, keys, k);
      CostSumNonNegative(plan, keys - {k});
    }
  }

  /**
   * With non-negative prices the total purchase cost of a plan is not
   * negative: every row buys a positive quantity at its supplier's price.
   */
  lemma PlanCostNonNegative(raw: Option<map<Id, Requirement>>, semi: Option<map<Id, Requirement>>, plan: Option<seq<PlanEntry>>,
                            rawPool: Option<seq<StockRow>>, suppliers: Option<seq<SupplierRow>>, params: map<string, int>)
    requires OptimizedPlan(raw, semi, plan, rawPool, suppliers, params).Some?
    requires PricesNonNegative(suppliers)
    ensures TotalCost(OptimizedPlan(raw, semi, plan, rawPool, suppliers, params).value) >= 0.0
  {
    var al := Allocate(raw, semi, plan, PlanningHorizon(params)).value;
    PurchasePlanCosts(raw.value, al.raw, al.window, rawPool, suppliers, SettingsOf(params));
    TotalCostNonNegative(PurchasePlan(raw.value, al.raw, al.window, rawPool, suppliers, SettingsOf(params)).value);
  }

  lemma TotalCostNonNegative(plan: map<(Id, Period), PurchaseRow>)
    requires forall k :: k in plan ==> plan[k].cost >= 0.0
    ensures TotalCost(plan) >= 0.0
  {
    CostSumNonNegative(plan, plan.Keys);
  }

  /** The summary block of the MRP report. */
  datatype Summary = Summary(totalRawMaterials: nat, totalSemiFinished: nat, totalPurchaseCost: real, planningHorizon: int)

  /** The MRP report: both requirement tables, both plans and the summary. */
  datatype Report = Report(
    raw: map<Id, Requirement>, semi: map<Id, Requirement>,
    purchasePlan: map<(Id, Period), PurchaseRow>, semiPlan: map<(Id, Period), SemiRow>,
    summary: Summary)

  // ---------------------------------------------------------------------
  // The loops
  // ---------------------------------------------------------------------

  /** The production_by_period / total_production loop over the plan rows. */
  method ProductionByPeriod(plan: seq<PlanEntry>, w: seq<Period>) returns (prod: map<Period, real>, total: real)
    ensures prod == ProductionIn(plan, w) && total == TotalIn(plan, w)
  {
    prod := map[];
    total := 0.0;
    var i := 0;
    while i < |plan|
      invariant 0 <= i <= |plan|
      invariant prod == ProductionIn(plan[..i], w) && total == TotalIn(plan[..i], w)
    {
      assert plan[..i + 1][..i] == plan[..i];
      var e := plan[i];
      if e.period in w {
        prod := prod[e.period := GetOr(prod, e.period, 0.0) + e.qty];
        total := total + e.qty;
      }
      i := i + 1;
    }
    assert plan[..i] == plan;
  }

  /** The rows of one requirement, one per window period. */
  method AllocateMaterial(m: Id, r: Requirement, w: seq<Period>, prod: map<Period, real>, total: real,
                          a: map<(Id, Period), Alloc>) returns (b: map<(Id, Period), Alloc>)
    ensures forall k :: k in b <==> k in a || (k.0 == m && k.1 in w)
    ensures forall k :: k in b ==> b[k] == if k.0 == m && k.1 in w then AllocCell(r, k.1, prod, total, |w|) else a[k]
  {
    b := a;
    var i := 0;
    while i < |w|
      invariant 0 <= i <= |w|
      invariant forall k :: k in b <==> k in a || (k.0 == m && k.1 in w[..i])
      invariant forall k :: k in b ==> b[k] == if k.0 == m && k.1 in w[..i] then AllocCell(r, k.1, prod, total, |w|) else a[k]
    {
      assert forall p :: p in w[..i + 1] <==> p in w[..i] || p == w[i];
      var p := w[i];
      b := b[(m, p) := AllocCell(r, p, prod, total, |w|)];
      i := i + 1;
    }
    assert w[..i] == w;
  }

  /** The allocation loop over one requirement table. */
  method AllocateTable(reqs: map<Id, Requirement>, w: seq<Period>, prod: map<Period, real>, total: real)
    returns (a: map<(Id, Period), Alloc>)
    ensures forall k :: k in a <==> k.0 in reqs && k.1 in w
    ensures forall k :: k in a ==> a[k] == AllocCell(reqs[k.0], k.1, prod, total, |w|)
  {
    a := map[];
    var todo := reqs.Keys;
    while todo != {}
      invariant todo <= reqs.Keys
      invariant forall k :: k in a <==> k.0 in reqs.Keys - todo && k.1 in w
      invariant forall k :: k in a ==> a[k] == AllocCell(reqs[k.0], k.1, prod, total, |w|)
      decreases todo
    {
      var m :| m in todo;
      a := AllocateMaterial(m, reqs[m], w, prod, total, a);
      todo := todo - {m};
    }
  }

  /** One more period of a purchase loop that has run so far. */
  lemma RunPurchasesStep(desc: string, m: Id, a: map<(Id, Period), Alloc>, w: seq<Period>, i: nat,
                         start: real, t: Terms, s: Settings, run: PurchaseRun)
    requires i < |w| && RunPurchases(desc, m, a, w[..i], start, t, s) == Some(run)
    ensures var demand := DemandOf(a, m, w[i]);
      RunPurchases(desc, m, a, w[..i + 1], start, t, s) ==
        if !PurchaseDefined(demand, w[i], run.inventory, t, s) then None
        else
          var row := PurchaseRowOf(desc, demand, w[i], run.inventory, t, s);
          Some(PurchaseRun(row.ending, if row.purchase > 0.0 then run.rows[w[i] := row] else run.rows))
  {
    assert w[..i + 1][..i] == w[..i];
  }

  /** One period of the purchase loop: net demand, the rounded order and its dates and cost. */
  method PeriodPurchase(desc: string, demand: real, p: Period, inventory: real, t: Terms, s: Settings)
    returns (row: PurchaseRow)
    requires PurchaseDefined(demand, p, inventory, t, s)
    ensures row == PurchaseRowOf(desc, demand, p, inventory, t, s)
  {
    var safety := SafetyStock(demand, s.safetyDays as real);
    var net := NetDemand(demand, safety, inventory);
    var purchase := if net > 0.0 then PurchaseQuantity(net, t.minOrderQty, s.orderMultiple) else 0.0;
    row := PurchaseRow(desc, demand, inventory, net, purchase, inventory + purchase - demand, t.supplier, t.leadTime,
                       FirstDay(p) - t.leadTime, FirstDay(p), t.price, Cost(purchase, t.price));
  }

  /** The period loop of one material's purchases. */
  method PlanMaterialPurchases(desc: string, m: Id, a: map<(Id, Period), Alloc>, w: seq<Period>,
                               start: real, t: Terms, s: Settings) returns (r: Option<PurchaseRun>)
    ensures r == RunPurchases(desc, m, a, w, start, t, s)
  {
    var inventory := start;
    var rows: map<Period, PurchaseRow> := map[];
    var i := 0;
    while i < |w|
      invariant 0 <= i <= |w|
      invariant RunPurchases(desc, m, a, w[..i], start, t, s) == Some(PurchaseRun(inventory, rows))
    {
      var p := w[i];
      var demand := DemandOf(a, m, p);
      RunPurchasesStep(desc, m, a, w, i, start, t, s, PurchaseRun(inventory, rows));
      if !PurchaseDefined(demand, p, inventory, t, s) {
        RunPurchasesFails(desc, m, a, w, i + 1, start, t, s);
        return None;
      }
      var row := PeriodPurchase(desc, demand, p, inventory, t, s);
      inventory := row.ending;
      if row.purchase > 0.0 {
        rows := rows[p := row];
      }
      i := i + 1;
    }
    assert w[..i] == w;
    r := Some(PurchaseRun(inventory, rows));
  }

  /** One more period of a semi-finished loop that has run so far. */
  lemma RunSemiStep(desc: string, m: Id, a: map<(Id, Period), Alloc>, w: seq<Period>, i: nat,
                    start: real, om: int, run: SemiRun)
    requires i < |w| && RunSemi(desc, m, a, w[..i], start, om) == Some(run)
    ensures var demand := DemandOf(a, m, w[i]);
      RunSemi(desc, m, a, w[..i + 1], start, om) ==
        if !SemiDefined(demand, run.inventory, om) then None
        else
          var row := SemiRowOf(desc, demand, run.inventory, om);
          Some(SemiRun(row.ending, run.rows[w[i] := row]))
  {
    assert w[..i + 1][..i] == w[..i];
  }

  /** The period loop of one semi-finished material. */
  method PlanMaterialSemi(desc: string, m: Id, a: map<(Id, Period), Alloc>, w: seq<Period>, start: real, om: int)
    returns (r: Option<SemiRun>)
    ensures r == RunSemi(desc, m, a, w, start, om)
  {
    var inventory := start;
    var rows: map<Period, SemiRow> := map[];
    var i := 0;
    while i < |w|
      invariant 0 <= i <= |w|
      invariant RunSemi(desc, m, a, w[..i], start, om) == Some(SemiRun(inventory, rows))
    {
      var p := w[i];
      var demand := DemandOf(a, m, p);
      RunSemiStep(desc, m, a, w, i, start, om, SemiRun(inventory, rows));
      if !SemiDefined(demand, inventory, om) {
        RunSemiFails(desc, m, a, w, i + 1, start, om);
        return None;
      }
      var net := NetDemand(demand, 0.0, inventory);
      var production := if net > 0.0 then SemiProduction(net, om) else 0.0;
      var ending := inventory + production - demand;
      var row := SemiRow(desc, demand, inventory, production, ending);
      assert row == SemiRowOf(desc, demand, inventory, om);
      rows := rows[p := row];
      inventory := ending;
      i := i + 1;
    }
    assert w[..i] == w;
    r := Some(SemiRun(inventory, rows));
  }

  /** A table built pointwise over the requirements and the window is the allocation. */
  lemma AllocationIs(reqs: map<Id, Requirement>, plan: seq<PlanEntry>, horizon: int, a: map<(Id, Period), Alloc>)
    requires var w := Window(plan, horizon);
      && (forall k :: k in a <==> k.0 in reqs && k.1 in w)
      && (forall k :: k in a ==> a[k] == AllocCell(reqs[k.0], k.1, ProductionIn(plan, w), TotalIn(plan, w), |w|))
    ensures a == AllocationOf(reqs, plan, horizon)
  {
  }

  /** Runs collected material by material are the purchase runs of the plan. */
  lemma PurchaseRunsAre(reqs: map<Id, Requirement>, a: map<(Id, Period), Alloc>, w: seq<Period>,
                        rawPool: Option<seq<StockRow>>, suppliers: Option<seq<SupplierRow>>, s: Settings,
                        runs: map<Id, map<Period, PurchaseRow>>)
    requires runs.Keys == reqs.Keys
    requires forall m :: m in runs ==> MaterialPurchases(reqs, m, a, w, rawPool, suppliers, s).Some?
    requires forall m :: m in runs ==> runs[m] == MaterialPurchases(reqs, m, a, w, rawPool, suppliers, s).value.rows
    ensures PurchasesDefined(reqs, a, w, rawPool, suppliers, s) && runs == PurchaseRuns(reqs, a, w, rawPool, suppliers, s)
  {
  }

  /** Runs collected material by material are the semi-finished runs of the plan. */
  lemma SemiRunsAre(reqs: map<Id, Requirement>, a: map<(Id, Period), Alloc>, w: seq<Period>,
                    semiPool: Option<seq<StockRow>>, om: int, runs: map<Id, map<Period, SemiRow>>)
    requires runs.Keys == reqs.Keys
    requires forall m :: m in runs ==> MaterialSemi(reqs, m, a, w, semiPool, om).Some?
    requires forall m :: m in runs ==> runs[m] == MaterialSemi(reqs, m, a, w, semiPool, om).value.rows
    ensures SemiPlanDefined(reqs, a, w, semiPool, om) && runs == SemiRuns(reqs, a, w, semiPool, om)
  {
  }

  /** The material loop of optimize_purchase_plan: one purchase loop per raw material. */
  method CollectPurchases(reqs: map<Id, Requirement>, a: map<(Id, Period), Alloc>, w: seq<Period>,
                          rawPool: Option<seq<StockRow>>, suppliers: Option<seq<SupplierRow>>, s: Settings)
    returns (r: Option<map<Id, map<Period, PurchaseRow>>>)
    ensures r.Some? <==> PurchasesDefined(reqs, a, w, rawPool, suppliers, s)
    ensures r.Some? ==> r.value == PurchaseRuns(reqs, a, w, rawPool, suppliers, s)
  {
    var runs: map<Id, map<Period, PurchaseRow>> := map[];
    var todo := reqs.Keys;
    while todo != {}
      invariant todo <= reqs.Keys
      invariant runs.Keys == reqs.Keys - todo
      invariant forall m :: m in runs ==> MaterialPurchases(reqs, m, a, w, rawPool, suppliers, s).Some?
      invariant forall m :: m in runs ==> runs[m] == MaterialPurchases(reqs, m, a, w, rawPool, suppliers, s).value.rows
      decreases todo
    {
      var m :| m in todo;
      var run := MaterialRun(reqs, m, a, w, rawPool, suppliers, s);
      if run.None? {
        return None;
      }
      runs := runs[m := run.value.rows];
      todo := todo - {m};
    }
    PurchaseRunsAre(reqs, a, w, rawPool, suppliers, s, runs);
    r := Some(runs);
  }

  /** The purchase loop of one raw material, from its opening stock and its supplier's terms. */
  method MaterialRun(reqs: map<Id, Requirement>, m: Id, a: map<(Id, Period), Alloc>, w: seq<Period>,
                     rawPool: Option<seq<StockRow>>, suppliers: Option<seq<SupplierRow>>, s: Settings)
    returns (run: Option<PurchaseRun>)
    requires m in reqs
    ensures run == MaterialPurchases(reqs, m, a, w, rawPool, suppliers, s)
  {
    run := PlanMaterialPurchases(reqs[m].description, m, a, w, StartStock(rawPool, m), TermsFor(suppliers, m), s);
  }

  /** The material loop of generate_semifinished_production_plan. */
  method CollectSemi(reqs: map<Id, Requirement>, a: map<(Id, Period), Alloc>, w: seq<Period>,
                     semiPool: Option<seq<StockRow>>, om: int)
    returns (r: Option<map<Id, map<Period, SemiRow>>>)
    ensures r.Some? <==> SemiPlanDefined(reqs, a, w, semiPool, om)
    ensures r.Some? ==> r.value == SemiRuns(reqs, a, w, semiPool, om)
  {
    var runs: map<Id, map<Period, SemiRow>> := map[];
    var todo := reqs.Keys;
    while todo != {}
      invariant todo <= reqs.Keys
      invariant runs.Keys == reqs.Keys - todo
      invariant forall m :: m in runs ==> MaterialSemi(reqs, m, a, w, semiPool, om).Some?
      invariant forall m :: m in runs ==> runs[m] == MaterialSemi(reqs, m, a, w, semiPool, om).value.rows
      decreases todo
    {
      var m :| m in todo;
      var inventory := InventoryOf(None, semiPool, m, SemiFinished);
      var run := PlanMaterialSemi(reqs[m].description, m, a, w, inventory, om);
      if run.None? {
        return None;
      }
      runs := runs[m := run.value.rows];
      todo := todo - {m};
    }
    SemiRunsAre(reqs, a, w, semiPool, om, runs);
    r := Some(runs);
  }

  /** The purchase plan of optimize_purchase_plan from the raw by-period table. */
  method PurchasesFrom(reqs: map<Id, Requirement>, a: map<(Id, Period), Alloc>, w: seq<Period>,
                       rawPool: Option<seq<StockRow>>, suppliers: Option<seq<SupplierRow>>, s: Settings)
    returns (r: Option<map<(Id, Period), PurchaseRow>>)
    ensures r == PurchasePlan(reqs, a, w, rawPool, suppliers, s)
  {
    if a == map[] {
      return None;
    }
    var runs := CollectPurchases(reqs, a, w, rawPool, suppliers, s);
    if runs.None? {
      return None;
    }
    r := Some(Flatten(runs.value));
  }

  /** The semi-finished plan from the semi-finished by-period table. */
  method SemiFrom(reqs: map<Id, Requirement>, a: map<(Id, Period), Alloc>, w: seq<Period>,
                  semiPool: Option<seq<StockRow>>, om: int)
    returns (r: Option<map<(Id, Period), SemiRow>>)
    ensures r == SemiPlan(reqs, a, w, semiPool, om)
  {
    if a == map[] {
      return None;
    }
    var runs := CollectSemi(reqs, a, w, semiPool, om);
    if runs.None? {
      return None;
    }
    r := Some(Flatten(runs.value));
  }

  /** purchase_plan['预计成本'].sum(). */
  method SumCosts(plan: map<(Id, Period), PurchaseRow>) returns (total: real)
    ensures total == TotalCost(plan)
  {
    total := 0.0;
    var todo := plan.Keys;
    while todo != {}
      invariant todo <= plan.Keys
      invariant total + CostSum(plan, todo) == TotalCost(plan)
      decreases todo
    {
      var k :| k in todo;
      CostSumRemove(plan, todo, k);
      total := total + plan[k].cost;
      todo := todo - {k};
    }
  }

  class MrpCalculator {
    var bom: Bom.BomManager?
    var productionPlan: Option<seq<PlanEntry>>
    var rawInventory: Option<seq<StockRow>>
    var semiInventory: Option<seq<StockRow>>
    var supplierData: Option<seq<SupplierRow>>
    var rawRequirements: Option<map<Id, Requirement>>
    var semiRequirements: Option<map<Id, Requirement>>
    var purchasePlan: Option<map<(Id, Period), PurchaseRow>>
    var params: map<string, int>

    ghost predicate Valid()
      reads this`bom, bom
    {
      bom != null ==> bom.Valid()
    }

    constructor(b: Bom.BomManager?)
      requires b != null ==> b.Valid()
      ensures Valid()
      ensures bom == b && productionPlan.None? && rawInventory.None? && semiInventory.None? && supplierData.None?
      ensures rawRequirements.None? && semiRequirements.None? && purchasePlan.None? && params == map[]
    {
      bom := b;
      productionPlan := None;
      rawInventory := None;
      semiInventory := None;
      supplierData := None;
      rawRequirements := None;
      semiRequirements := None;
      purchasePlan := None;
      params := map[];
    }

    /** set_bom_manager: a missing manager is refused and nothing changes. */
    method SetBomManager(b: Bom.BomManager?) returns (ok: bool)
      requires Valid() && (b != null ==> b.Valid())
      modifies this`bom
      ensures Valid()
      ensures ok <==> b != null
      ensures bom == if ok then b else old(bom)
    {
      if b == null {
        return false;
      }
      bom := b;
      return true;
    }

    /** The successful end of load_production_plan. */
    method LoadProductionPlan(plan: seq<PlanEntry>)
      modifies this`productionPlan
      ensures productionPlan == Some(plan)
    {
      productionPlan := Some(plan);
    }

    /** The successful end of load_raw_material_inventory. */
    method LoadRawMaterialInventory(rows: seq<StockRow>)
      modifies this`rawInventory
      ensures rawInventory == Some(rows)
    {
      rawInventory := Some(rows);
    }

    /** The successful end of load_semifinished_inventory. */
    method LoadSemifinishedInventory(rows: seq<StockRow>)
      modifies this`semiInventory
      ensures semiInventory == Some(rows)
    {
      semiInventory := Some(rows);
    }

    /** The successful end of load_supplier_data. */
    method LoadSupplierData(rows: seq<SupplierRow>)
      modifies this`supplierData
      ensures supplierData == Some(rows)
    {
      supplierData := Some(rows);
    }

    /**
     * set_mrp_parameters: anything but a dictionary (None here) is refused
     * and nothing changes; a dictionary is merged over the defaults.
     */
    method SetMrpParameters(given: Option<map<string, int>>) returns (ok: bool)
      modifies this`params
      ensures ok <==> given.Some?
      ensures params == if ok then Merge(DefaultParameters, given.value) else old(params)
    {
      if given.None? {
        return false;
      }
      params := Merge(DefaultParameters, given.value);
      return true;
    }

    /**
     * calculate_requirements: both requirement tables from the BOM manager,
     * stored only when both exist.
     */
    method CalculateRequirements() returns (raw: Option<map<Id, Requirement>>, semi: Option<map<Id, Requirement>>)
      requires Valid()
      modifies this`rawRequirements, this`semiRequirements
      ensures Valid()
      ensures var q := old(RequirementsFor(bom, productionPlan));
        && (q.None? ==> raw.None? && semi.None? && rawRequirements == old(rawRequirements) && semiRequirements == old(semiRequirements))
        && (q.Some? ==> raw == Some(q.value.0) && semi == Some(q.value.1) && rawRequirements == raw && semiRequirements == semi)
    {
      if bom == null || productionPlan.None? {
        return None, None;
      }
      var rows := PlanRows(productionPlan.value);
      raw := bom.CalculateRawMaterialRequirements(rows);
      if raw.None? {
        return None, None;
      }
      semi := bom.CalculateSemifinishedRequirements(rows);
      if semi.None? {
        return None, None;
      }
      rawRequirements := raw;
      semiRequirements := semi;
    }

    /**
     * allocate_requirements_to_periods: both requirement tables spread over
     * the planning window (production_by_period is the same for every
     * requirement, so it is computed once).
     */
    method AllocateRequirementsToPeriods() returns (r: Option<Allocated>)
      ensures r == Allocate(rawRequirements, semiRequirements, productionPlan, PlanningHorizon(params))
    {
      if rawRequirements.None? || semiRequirements.None? || productionPlan.None? {
        return None;
      }
      var plan := productionPlan.value;
      var w := Window(plan, PlanningHorizon(params));
      var prod, total := ProductionByPeriod(plan, w);
      var raw := AllocateTable(rawRequirements.value, w, prod, total);
      var semi := AllocateTable(semiRequirements.value, w, prod, total);
      AllocationIs(rawRequirements.value, plan, PlanningHorizon(params), raw);
      AllocationIs(semiRequirements.value, plan, PlanningHorizon(params), semi);
      r := Some(Allocated(raw, semi, w));
    }

    /** get_material_inventory. */
    function GetMaterialInventory(m: Id, t: MaterialType): (q: real)
      reads this
      ensures t == Raw ==> q == (if rawInventory.Some? then FirstStock(rawInventory.value, m) else 0.0)
      ensures t == SemiFinished ==> q == (if semiInventory.Some? then FirstStock(semiInventory.value, m) else 0.0)
      ensures t == Finished || t == Unknown ==> q == 0.0
    {
      InventoryOf(rawInventory, semiInventory, m, t)
    }

    /** get_supplier_info. */
    function GetSupplierInfo(m: Id): (r: seq<SupplierRow>)
      reads this
      ensures supplierData.None? ==> r == []
      ensures supplierData.Some? ==> forall x :: x in r <==> x in supplierData.value && x.material == m
    {
      SupplierInfo(supplierData, m)
    }

    /**
     * The computing part of optimize_purchase_plan: the purchase loop of
     * every raw material over the window.
     */
    method ComputePurchasePlan() returns (r: Option<map<(Id, Period), PurchaseRow>>)
      ensures r == OptimizedPlan(rawRequirements, semiRequirements, productionPlan, rawInventory, supplierData, params)
    {
      if rawRequirements.None? {
        return None;
      }
      var alloc := AllocateRequirementsToPeriods();
      if alloc.None? {
        return None;
      }
      r := PurchasesFrom(rawRequirements.value, alloc.value.raw, alloc.value.window, rawInventory, supplierData, SettingsOf(params));
    }

    /** optimize_purchase_plan: the plan is computed, and stored only when it is not empty. */
    method OptimizePurchasePlan() returns (r: Option<map<(Id, Period), PurchaseRow>>)
      modifies this`purchasePlan
      ensures r == old(OptimizedPlan(rawRequirements, semiRequirements, productionPlan, rawInventory, supplierData, params))
      ensures purchasePlan == if r.Some? && r.value != map[] then r else old(purchasePlan)
    {
      r := ComputePurchasePlan();
      if r.Some? && r.value != map[] {
        purchasePlan := r;
      }
    }

    /** generate_semifinished_production_plan: the semi-finished loop of every material over the window. */
    method GenerateSemifinishedProductionPlan() returns (r: Option<map<(Id, Period), SemiRow>>)
      ensures r == SemiPlanFor(rawRequirements, semiRequirements, productionPlan, semiInventory, params)
    {
      if semiRequirements.None? {
        return None;
      }
      var alloc := AllocateRequirementsToPeriods();
      if alloc.None? {
        return None;
      }
      r := SemiFrom(semiRequirements.value, alloc.value.semi, alloc.value.window, semiInventory, SettingsOf(params).orderMultiple);
    }

    /**
     * generate_mrp_report: requirements, purchase plan and semi-finished
     * plan in turn, None as soon as one fails, and the summary of counts,
     * total purchase cost and planning horizon.
     */
    method GenerateMrpReport() returns (r: Option<Report>)
      requires Valid()
      modifies this`rawRequirements, this`semiRequirements, this`purchasePlan
      ensures Valid()
      ensures old(RequirementsFor(bom, productionPlan)).None? ==>
        && r.None?
        && rawRequirements == old(rawRequirements) && semiRequirements == old(semiRequirements)
        && purchasePlan == old(purchasePlan)
      ensures var q := old(RequirementsFor(bom, productionPlan));
        q.Some? ==>
          && rawRequirements == Some(q.value.0) && semiRequirements == Some(q.value.1)
          && var p := OptimizedPlan(rawRequirements, semiRequirements, productionPlan, rawInventory, supplierData, params);
             purchasePlan == if p.Some? && p.value != map[] then p else old(purchasePlan)
      ensures r.Some? ==>
        && old(RequirementsFor(bom, productionPlan)) == Some((r.value.raw, r.value.semi))
        && rawRequirements == Some(r.value.raw) && semiRequirements == Some(r.value.semi)
        && OptimizedPlan(rawRequirements, semiRequirements, productionPlan, rawInventory, supplierData, params) == Some(r.value.purchasePlan)
        && SemiPlanFor(rawRequirements, semiRequirements, productionPlan, semiInventory, params) == Some(r.value.semiPlan)
        && r.value.summary == Summary(|r.value.raw|, |r.value.semi|, TotalCost(r.value.purchasePlan), PlanningHorizon(params))
        && purchasePlan == if r.value.purchasePlan != map[] then Some(r.value.purchasePlan) else old(purchasePlan)
      ensures old(RequirementsFor(bom, productionPlan)).Some? ==>
        (r.None? <==>
          OptimizedPlan(rawRequirements, semiRequirements, productionPlan, rawInventory, supplierData, params).None? ||
          SemiPlanFor(rawRequirements, semiRequirements, productionPlan, semiInventory, params).None?)
    {
      var raw, semi := CalculateRequirements();
      if raw.None? || semi.None? {
        return None;
      }
      var purchases := OptimizePurchasePlan();
      if purchases.None? {
        return None;
      }
      var semiPlan := GenerateSemifinishedProductionPlan();
      if semiPlan.None? {
        return None;
      }
      var cost := SumCosts(purchases.value);
      r := Some(Report(raw.value, semi.value, purchases.value, semiPlan.value,
                       Summary(|raw.value|, |semi.value|, cost, PlanningHorizon(params))));
    }
  }
}
