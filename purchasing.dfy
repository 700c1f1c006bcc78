/**
 * Purchase and semi-finished planning of the MRP calculator
 * (production_planning_system/models/mrp_calculator.py,
 * get_material_inventory, get_supplier_info, optimize_purchase_plan and
 * generate_semifinished_production_plan), stated as functions of the
 * by-period requirement tables: the period loop of one material, carrying
 * its inventory forward, and the plan that collects the loops of all
 * materials.
 */
module Purchasing {
  import opened Common
  import opened Netting
  import opened Calendar
  import opened BomTables
  import opened Allocation

  /**
   * get_material_inventory: Raw materials are looked up in the raw
   * inventory, semi-finished ones in the semi-finished inventory; any
   * other type, or a table that was never loaded, gives 0.
   */
  function InventoryOf(rawPool: Option<seq<StockRow>>, semiPool: Option<seq<StockRow>>, m: Id, t: MaterialType): (q: real)
    ensures t == Raw && rawPool.Some? ==> q == FirstStock(rawPool.value, m)
    ensures t == SemiFinished && semiPool.Some? ==> q == FirstStock(semiPool.value, m)
    ensures (t == Raw && rawPool.None?) || (t == SemiFinished && semiPool.None?) || t == Finished || t == Unknown ==> q == 0.0
  {
    if t == Raw && rawPool.Some? then FirstStock(rawPool.value, m)
    else if t == SemiFinished && semiPool.Some? then FirstStock(semiPool.value, m)
    else 0.0
  }

  /** A supplier row: material, supplier, lead time in days, minimum order quantity and unit price. */
  datatype SupplierRow = SupplierRow(material: Id, supplier: string, leadTime: int, minOrderQty: real, price: real)

  /** The supplier rows of m, in table order. */
  function SuppliersOf(data: seq<SupplierRow>, m: Id): (r: seq<SupplierRow>)
    ensures forall x :: x in r <==> x in data && x.material == m
    decreases |data|
  {
    if |data| == 0 then []
    else
      var rest := SuppliersOf(data[1..], m);
      assert forall x :: x in data <==> x == data[0] || x in data[1..];
      (if data[0].material == m then [data[0]] else []) + rest
  }

  /** The first of m's supplier rows is m's first row in the table. */
  lemma {:induction false} SuppliersOfFirst(data: seq<SupplierRow>, m: Id, i: int)
    requires 0 <= i < |data| && data[i].material == m && forall j :: 0 <= j < i ==> data[j].material != m
    ensures |SuppliersOf(data, m)| > 0 && SuppliersOf(data, m)[0] == data[i]
    decreases |data|
  {
    if i > 0 {
      assert forall j :: 0 <= j < i - 1 ==> data[1..][j] == data[j + 1];
      SuppliersOfFirst(data[1..], m, i - 1);
    }
  }

  /** get_supplier_info: no supplier table gives no rows. */
  function SupplierInfo(data: Option<seq<SupplierRow>>, m: Id): (r: seq<SupplierRow>)
    ensures data.None? ==> r == []
    ensures data.Some? ==> forall x :: x in r <==> x in data.value && x.material == m
  {
    if data.None? then [] else SuppliersOf(data.value, m)
  }

  /** The order terms a material is purchased under. */
  datatype Terms = Terms(supplier: string, leadTime: int, minOrderQty: real, price: real)

  /** The default supplier of a material without supplier rows: 15 days lead, 100 minimum, unit price 1. */
  const DefaultTerms := Terms("默认供应商", 15, 100.0, 1.0)

  /** The first-choice supplier: the first of the material's rows, or the default. */
  function ChooseTerms(suppliers: seq<SupplierRow>): Terms
  {
    if |suppliers| == 0 then DefaultTerms
    else Terms(suppliers[0].supplier, suppliers[0].leadTime, suppliers[0].minOrderQty, suppliers[0].price)
  }

  /** A material is bought from its first supplier row, or from the default supplier when it has none. */
  lemma ChosenSupplier(data: Option<seq<SupplierRow>>, m: Id)
    ensures (data.None? || forall i :: 0 <= i < |data.value| ==> data.value[i].material != m) ==>
      ChooseTerms(SupplierInfo(data, m)) == DefaultTerms
    ensures data.Some? ==> forall i ::
      (0 <= i < |data.value| && data.value[i].material == m && (forall j :: 0 <= j < i ==> data.value[j].material != m)) ==>
        (var s := data.value[i];
         ChooseTerms(SupplierInfo(data, m)) == Terms(s.supplier, s.leadTime, s.minOrderQty, s.price))
  {
    if data.Some? {
      forall i | 0 <= i < |data.value| && data.value[i].material == m && (forall j :: 0 <= j < i ==> data.value[j].material != m)
        ensures ChooseTerms(SupplierInfo(data, m)) == Terms(data.value[i].supplier, data.value[i].leadTime, data.value[i].minOrderQty, data.value[i].price)
      {
        SuppliersOfFirst(data.value, m, i);
      }
    }
  }

  /** The MRP parameters the netting uses: safety stock days and order multiple. */
  datatype Settings = Settings(safetyDays: int, orderMultiple: int)

  // ---------------------------------------------------------------------
  // Purchase planning
  // ---------------------------------------------------------------------

  /** One row of the purchase plan (the key holds material and period); days are day numbers. */
  datatype PurchaseRow = PurchaseRow(
    description: string, demand: real, beginning: real, net: real, purchase: real, ending: real,
    supplier: string, leadTime: int, orderDay: int, deliveryDay: int, price: real, cost: real)

  /** The period's net demand: its demand plus safety stock less the inventory on hand. */
  function PeriodNet(demand: real, inventory: real, s: Settings): real
  {
    NetDemand(demand, SafetyStock(demand, s.safetyDays as real), inventory)
  }

  /**
   * A period of the purchase loop computes its values: the rounding of a
   * positive net demand has a lot to divide by, and both the delivery date
   * (the first of the month) and the order date (lead-time days earlier)
   * are dates Python can represent.
   */
  predicate PurchaseDefined(demand: real, p: Period, inventory: real, t: Terms, s: Settings)
  {
    && (PeriodNet(demand, inventory, s) > 0.0 && PurchaseRounded(t.minOrderQty, s.orderMultiple) ==>
        PurchaseLot(t.minOrderQty, s.orderMultiple) != 0.0)
    && OrderDateOk(p, t.leadTime)
  }

  function Cost(purchase: real, price: real): real
  {
    purchase * price
  }

  /** The purchase row of one period, computed whether or not the period is emitted. */
  function PurchaseRowOf(desc: string, demand: real, p: Period, inventory: real, t: Terms, s: Settings): (r: PurchaseRow)
    requires PurchaseDefined(demand, p, inventory, t, s)
    ensures r.demand == demand && r.beginning == inventory && r.description == desc
    ensures r.net == PeriodNet(demand, inventory, s) && r.net >= 0.0
    ensures r.ending == r.beginning + r.purchase - r.demand
    ensures r.net <= 0.0 ==> r.purchase == 0.0
    ensures r.supplier == t.supplier && r.leadTime == t.leadTime && r.price == t.price
    ensures r.deliveryDay == FirstDay(p) && r.orderDay == FirstDay(p) - t.leadTime
    ensures 1 <= r.orderDay <= MaxDay
    ensures r.cost == Cost(r.purchase, r.price)
  {
    var net := PeriodNet(demand, inventory, s);
    var purchase := if net > 0.0 then PurchaseQuantity(net, t.minOrderQty, s.orderMultiple) else 0.0;
    PurchaseRow(desc, demand, inventory, net, purchase, inventory + purchase - demand,
                t.supplier, t.leadTime, FirstDay(p) - t.leadTime, FirstDay(p), t.price, Cost(purchase, t.price))
  }

  /** The purchase loop of one material so far: the inventory it carries and the rows it emitted. */
  datatype PurchaseRun = PurchaseRun(inventory: real, rows: map<Period, PurchaseRow>)

  /**
   * The period loop of one material over the periods w: the inventory
   * carried from period to period, and a row for each period whose
   * purchase is positive. None when a period cannot be computed.
   */
  function RunPurchases(desc: string, m: Id, a: map<(Id, Period), Alloc>, w: seq<Period>,
                        start: real, t: Terms, s: Settings): Option<PurchaseRun>
    decreases |w|
  {
    if |w| == 0 then Some(PurchaseRun(start, map[]))
    else
      match RunPurchases(desc, m, a, w[..|w| - 1], start, t, s)
      case None => None
      case Some(run) =>
        var p := w[|w| - 1];
        var demand := DemandOf(a, m, p);
        if !PurchaseDefined(demand, p, run.inventory, t, s) then None
        else
          var row := PurchaseRowOf(desc, demand, p, run.inventory, t, s);
          Some(PurchaseRun(row.ending, if row.purchase > 0.0 then run.rows[p := row] else run.rows))
  }

  /** Once a period fails, the whole loop fails. */
  lemma {:induction false} RunPurchasesFails(desc: string, m: Id, a: map<(Id, Period), Alloc>, w: seq<Period>, n: nat,
                                             start: real, t: Terms, s: Settings)
    requires n <= |w| && RunPurchases(desc, m, a, w[..n], start, t, s).None?
    ensures RunPurchases(desc, m, a, w, start, t, s).None?
    decreases |w| - n
  {
    if n < |w| {
      assert w[..n + 1][..n] == w[..n];
      RunPurchasesFails(desc, m, a, w, n + 1, start, t, s);
    } else {
      assert w[..n] == w;
    }
  }

  /**
   * Purchases cover the net demand: with a positive minimum order (or no
   * rounding) a positive net demand is bought in full, at least the
   * minimum order, and in whole lots; otherwise nothing is bought.
   */
  predicate Covers(t: Terms, s: Settings)
  {
    t.minOrderQty > 0.0 || !PurchaseRounded(t.minOrderQty, s.orderMultiple)
  }

  /** A purchase is never negative, whatever the supplier terms. */
  lemma PurchaseNonNegative(net: real, moq: real, om: int)
    requires PurchaseRounded(moq, om) ==> PurchaseLot(moq, om) != 0.0
    ensures PurchaseQuantity(net, moq, om) >= 0.0
  {
    if net > 0.0 && PurchaseRounded(moq, om) {
      var lot := PurchaseLot(moq, om);
      var q := Max(net, moq);
      var c := Ceil(q / lot);
      if lot < 0.0 {
        assert q / lot < 0.0;
        assert c <= 0;
        assert c as real * lot >= 0.0;
      } else {
        RoundUpIsLeastMultiple(q, lot);
      }
    }
  }

  /** The lot-size promises of one computed period (mrp_calculator.py:504-514). */
  lemma PurchaseRowLots(desc: string, demand: real, p: Period, inventory: real, t: Terms, s: Settings)
    requires PurchaseDefined(demand, p, inventory, t, s)
    ensures var r := PurchaseRowOf(desc, demand, p, inventory, t, s);
      && r.purchase >= 0.0
      && (r.net > 0.0 && Covers(t, s) ==> r.purchase >= r.net && r.purchase >= t.minOrderQty)
      && (r.net > 0.0 && PurchaseRounded(t.minOrderQty, s.orderMultiple) && t.minOrderQty > 0.0 ==>
           IsLotMultiple(r.purchase, PurchaseLot(t.minOrderQty, s.orderMultiple)))
      && (r.net > 0.0 && !PurchaseRounded(t.minOrderQty, s.orderMultiple) ==> r.purchase == Max(r.net, t.minOrderQty))
  {
    var net := PeriodNet(demand, inventory, s);
    if net > 0.0 {
      PurchaseNonNegative(net, t.minOrderQty, s.orderMultiple);
    }
  }

  /** With covering terms the ending inventory of every period holds at least its safety stock. */
  lemma PurchaseRowSafe(desc: string, demand: real, p: Period, inventory: real, t: Terms, s: Settings)
    requires PurchaseDefined(demand, p, inventory, t, s) && Covers(t, s)
    ensures PurchaseRowOf(desc, demand, p, inventory, t, s).ending >= SafetyStock(demand, s.safetyDays as real)
  {
    PurchaseRowLots(desc, demand, p, inventory, t, s);
  }

  /** The purchases of the periods of w that a loop emitted (0 for a period without a row). */
  function Purchased(rows: map<Period, PurchaseRow>, w: seq<Period>): real
    decreases |w|
  {
    if |w| == 0 then 0.0
    else Purchased(rows, w[..|w| - 1]) + (if w[|w| - 1] in rows then rows[w[|w| - 1]].purchase else 0.0)
  }

  lemma {:induction false} PurchasedUnchanged(rows: map<Period, PurchaseRow>, w: seq<Period>, p: Period, row: PurchaseRow)
    requires p !in w
    ensures Purchased(rows[p := row], w) == Purchased(rows, w)
    decreases |w|
  {
    if |w| > 0 {
      assert w[..|w| - 1] + [w[|w| - 1]] == w;
      PurchasedUnchanged(rows, w[..|w| - 1], p, row);
    }
  }

  /** Every row a loop emits belongs to one of its periods, carries a positive purchase and its period's demand. */
  lemma {:induction false} RunRows(desc: string, m: Id, a: map<(Id, Period), Alloc>, w: seq<Period>,
                                   start: real, t: Terms, s: Settings)
    requires RunPurchases(desc, m, a, w, start, t, s).Some?
    ensures var rows := RunPurchases(desc, m, a, w, start, t, s).value.rows;
      forall p :: p in rows ==>
        && p in w && rows[p].purchase > 0.0 && rows[p].demand == DemandOf(a, m, p)
        && rows[p].description == desc && rows[p].cost == Cost(rows[p].purchase, t.price)
        && rows[p].supplier == t.supplier && rows[p].price == t.price && rows[p].leadTime == t.leadTime
        && rows[p].ending == rows[p].beginning + rows[p].purchase - rows[p].demand
        && OrderDateOk(p, t.leadTime)
        && rows[p].deliveryDay == FirstDay(p) && rows[p].orderDay + t.leadTime == rows[p].deliveryDay
    decreases |w|
  {
    if |w| > 0 {
      RunRows(desc, m, a, w[..|w| - 1], start, t, s);
      assert forall p :: p in w[..|w| - 1] ==> p in w;
    }
  }

  /** With covering terms, every emitted row ends at or above its period's safety stock. */
  lemma {:induction false} RunSafe(desc: string, m: Id, a: map<(Id, Period), Alloc>, w: seq<Period>,
                                   start: real, t: Terms, s: Settings)
    requires RunPurchases(desc, m, a, w, start, t, s).Some? && Covers(t, s)
    ensures var rows := RunPurchases(desc, m, a, w, start, t, s).value.rows;
      forall p :: p in rows ==> rows[p].ending >= SafetyStock(rows[p].demand, s.safetyDays as real)
    decreases |w|
  {
    if |w| > 0 {
      var run := RunPurchases(desc, m, a, w[..|w| - 1], start, t, s).value;
      RunSafe(desc, m, a, w[..|w| - 1], start, t, s);
      var p := w[|w| - 1];
      PurchaseRowSafe(desc, DemandOf(a, m, p), p, run.inventory, t, s);
    }
  }

  /**
   * Inventory is conserved along a material's periods w without repeats:
   * the final inventory is the starting one plus everything bought less
   * everything demanded, since every period that buys something is emitted.
   */
  lemma {:induction false} RunConserves(desc: string, m: Id, a: map<(Id, Period), Alloc>, w: seq<Period>,
                                        start: real, t: Terms, s: Settings)
    requires Distinct(w) && RunPurchases(desc, m, a, w, start, t, s).Some?
    ensures var run := RunPurchases(desc, m, a, w, start, t, s).value;
      run.inventory == start + Purchased(run.rows, w) - MaterialDemand(a, m, w)
    decreases |w|
  {
    if |w| > 0 {
      var init := w[..|w| - 1];
      var p := w[|w| - 1];
      var before := RunPurchases(desc, m, a, init, start, t, s).value;
      RunConserves(desc, m, a, init, start, t, s);
      RunRows(desc, m, a, init, start, t, s);
      assert p !in init by {
        forall i | 0 <= i < |init| ensures init[i] != p {
          assert w[i] != w[|w| - 1];
        }
      }
      assert p !in before.rows;
      var row := PurchaseRowOf(desc, DemandOf(a, m, p), p, before.inventory, t, s);
      PurchaseRowLots(desc, DemandOf(a, m, p), p, before.inventory, t, s);
      if row.purchase > 0.0 {
        PurchasedUnchanged(before.rows, init, p, row);
      }
    }
  }

  /** The inventory a material's purchase loop starts from, and the terms it buys under. */
  function StartStock(rawPool: Option<seq<StockRow>>, m: Id): real
  {
    InventoryOf(rawPool, None, m, Raw)
  }

  function TermsFor(suppliers: Option<seq<SupplierRow>>, m: Id): Terms
  {
    ChooseTerms(SupplierInfo(suppliers, m))
  }

  /** The purchase loop of material m. */
  function MaterialPurchases(reqs: map<Id, Requirement>, m: Id, a: map<(Id, Period), Alloc>, w: seq<Period>,
                             rawPool: Option<seq<StockRow>>, suppliers: Option<seq<SupplierRow>>, s: Settings): Option<PurchaseRun>
    requires m in reqs
  {
    RunPurchases(reqs[m].description, m, a, w, StartStock(rawPool, m), TermsFor(suppliers, m), s)
  }

  /** Whether every material's purchase loop runs to the end. */
  predicate PurchasesDefined(reqs: map<Id, Requirement>, a: map<(Id, Period), Alloc>, w: seq<Period>,
                             rawPool: Option<seq<StockRow>>, suppliers: Option<seq<SupplierRow>>, s: Settings)
  {
    forall m :: m in reqs ==> MaterialPurchases(reqs, m, a, w, rawPool, suppliers, s).Some?
  }

  function PurchaseRuns(reqs: map<Id, Requirement>, a: map<(Id, Period), Alloc>, w: seq<Period>,
                        rawPool: Option<seq<StockRow>>, suppliers: Option<seq<SupplierRow>>, s: Settings): map<Id, map<Period, PurchaseRow>>
    requires PurchasesDefined(reqs, a, w, rawPool, suppliers, s)
  {
    map m | m in reqs :: MaterialPurchases(reqs, m, a, w, rawPool, suppliers, s).value.rows
  }

  /**
   * The purchase plan over the raw by-period table a and its periods w.
   * An empty table has no period columns to read, so it fails like a
   * period that cannot be computed.
   */
  function PurchasePlan(reqs: map<Id, Requirement>, a: map<(Id, Period), Alloc>, w: seq<Period>,
                        rawPool: Option<seq<StockRow>>, suppliers: Option<seq<SupplierRow>>, s: Settings): Option<map<(Id, Period), PurchaseRow>>
  {
    if a == map[] || !PurchasesDefined(reqs, a, w, rawPool, suppliers, s) then None
    else Some(Flatten(PurchaseRuns(reqs, a, w, rawPool, suppliers, s)))
  }

  /**
   * What the purchase plan holds: a row for (m, p) exactly when m's loop
   * buys in period p, carrying m's description, its own period's demand,
   * the terms of m's first supplier (or the default), the order day
   * lead-time days before delivery on the first of the month, and cost =
   * purchase * price.
   */
  lemma PurchasePlanRows(reqs: map<Id, Requirement>, a: map<(Id, Period), Alloc>, w: seq<Period>,
                         rawPool: Option<seq<StockRow>>, suppliers: Option<seq<SupplierRow>>, s: Settings, m: Id, p: Period)
    requires PurchasePlan(reqs, a, w, rawPool, suppliers, s).Some?
    ensures var plan := PurchasePlan(reqs, a, w, rawPool, suppliers, s).value;
      (m, p) in plan ==>
        var row := plan[(m, p)];
        var t := TermsFor(suppliers, m);
        && m in reqs && p in w && row.purchase > 0.0
        && row.description == reqs[m].description && row.demand == DemandOf(a, m, p)
        && row.supplier == t.supplier && row.price == t.price && row.leadTime == t.leadTime
        && row.cost == Cost(row.purchase, t.price)
        && OrderDateOk(p, t.leadTime)
        && row.deliveryDay == FirstDay(p) && row.orderDay + t.leadTime == row.deliveryDay
  {
    var plan := PurchasePlan(reqs, a, w, rawPool, suppliers, s).value;
    var runs := PurchaseRuns(reqs, a, w, rawPool, suppliers, s);
    assert plan == Flatten(runs);
    if (m, p) in plan {
      assert m in runs && p in runs[m];
      var t := TermsFor(suppliers, m);
      var run := MaterialPurchases(reqs, m, a, w, rawPool, suppliers, s).value;
      assert runs[m] == run.rows;
      assert plan[(m, p)] == run.rows[p];
      RunRows(reqs[m].description, m, a, w, StartStock(rawPool, m), t, s);
    }
  }

  /** Every supplier row quotes a non-negative unit price. */
  predicate PricesNonNegative(suppliers: Option<seq<SupplierRow>>)
  {
    suppliers.Some? ==> forall i :: 0 <= i < |suppliers.value| ==> suppliers.value[i].price >= 0.0
  }

  /** The chosen terms then carry a non-negative price too: the default price is 1.0. */
  lemma TermsPriceNonNegative(suppliers: Option<seq<SupplierRow>>, m: Id)
    requires PricesNonNegative(suppliers)
    ensures TermsFor(suppliers, m).price >= 0.0
  {
    if suppliers.Some? && |SupplierInfo(suppliers, m)| > 0 {
      assert SupplierInfo(suppliers, m)[0] in suppliers.value;
    }
  }

  lemma CostNonNegative(purchase: real, price: real)
    requires purchase >= 0.0 && price >= 0.0
    ensures Cost(purchase, price) >= 0.0
  {
  }

  /** With non-negative prices every row of the purchase plan costs a non-negative amount. */
  lemma PurchasePlanCosts(reqs: map<Id, Requirement>, a: map<(Id, Period), Alloc>, w: seq<Period>,
                          rawPool: Option<seq<StockRow>>, suppliers: Option<seq<SupplierRow>>, s: Settings)
    requires PurchasePlan(reqs, a, w, rawPool, suppliers, s).Some?
    requires PricesNonNegative(suppliers)
    ensures var plan := PurchasePlan(reqs, a, w, rawPool, suppliers, s).value;
      forall k :: k in plan ==> plan[k].cost >= 0.0
  {
    var plan := PurchasePlan(reqs, a, w, rawPool, suppliers, s).value;
    forall k | k in plan ensures plan[k].cost >= 0.0 {
      PurchasePlanRows(reqs, a, w, rawPool, suppliers, s, k.0, k.1);
      TermsPriceNonNegative(suppliers, k.0);
      CostNonNegative(plan[k].purchase, TermsFor(suppliers, k.0).price);
    }
  }

  // ---------------------------------------------------------------------
  // Semi-finished production planning
  // ---------------------------------------------------------------------

  /** One row of the semi-finished production plan (the key holds material and period). */
  datatype SemiRow = SemiRow(description: string, demand: real, beginning: real, production: real, ending: real)

  /** Net demand of a semi-finished period: demand less inventory, no safety stock. */
  function SemiNet(demand: real, inventory: real): real
  {
    NetDemand(demand, 0.0, inventory)
  }

  /** A positive net demand is rounded to the order multiple, which must not be zero. */
  predicate SemiDefined(demand: real, inventory: real, om: int)
  {
    SemiNet(demand, inventory) > 0.0 ==> om != 0
  }

  function SemiRowOf(desc: string, demand: real, inventory: real, om: int): (r: SemiRow)
    requires SemiDefined(demand, inventory, om)
    ensures r.demand == demand && r.beginning == inventory && r.description == desc
    ensures r.ending == r.beginning + r.production - r.demand
    ensures SemiNet(demand, inventory) <= 0.0 ==> r.production == 0.0
    ensures om > 0 ==> r.ending >= 0.0
    ensures om > 0 && SemiNet(demand, inventory) > 0.0 ==>
      r.production < SemiNet(demand, inventory) + om as real && IsLotMultiple(r.production, om as real)
  {
    var net := SemiNet(demand, inventory);
    var production := if net > 0.0 then SemiProduction(net, om) else 0.0;
    SemiRow(desc, demand, inventory, production, inventory + production - demand)
  }

  datatype SemiRun = SemiRun(inventory: real, rows: map<Period, SemiRow>)

  /** The period loop of one semi-finished material: every period gets a row. */
  function RunSemi(desc: string, m: Id, a: map<(Id, Period), Alloc>, w: seq<Period>, start: real, om: int): Option<SemiRun>
    decreases |w|
  {
    if |w| == 0 then Some(SemiRun(start, map[]))
    else
      match RunSemi(desc, m, a, w[..|w| - 1], start, om)
      case None => None
      case Some(run) =>
        var p := w[|w| - 1];
        var demand := DemandOf(a, m, p);
        if !SemiDefined(demand, run.inventory, om) then None
        else
          var row := SemiRowOf(desc, demand, run.inventory, om);
          Some(SemiRun(row.ending, run.rows[p := row]))
  }

  lemma {:induction false} RunSemiFails(desc: string, m: Id, a: map<(Id, Period), Alloc>, w: seq<Period>, n: nat,
                                        start: real, om: int)
    requires n <= |w| && RunSemi(desc, m, a, w[..n], start, om).None?
    ensures RunSemi(desc, m, a, w, start, om).None?
    decreases |w| - n
  {
    if n < |w| {
      assert w[..n + 1][..n] == w[..n];
      RunSemiFails(desc, m, a, w, n + 1, start, om);
    } else {
      assert w[..n] == w;
    }
  }

  /** A loop with a positive order multiple always runs to the end. */
  lemma {:induction false} RunSemiDefined(desc: string, m: Id, a: map<(Id, Period), Alloc>, w: seq<Period>, start: real, om: int)
    requires om > 0
    ensures RunSemi(desc, m, a, w, start, om).Some?
    decreases |w|
  {
    if |w| > 0 {
      RunSemiDefined(desc, m, a, w[..|w| - 1], start, om);
    }
  }

  /**
   * Every period of w is emitted, with its own demand, and with a positive
   * order multiple no ending inventory is negative once the starting
   * inventory is not.
   */
  lemma {:induction false} RunSemiRows(desc: string, m: Id, a: map<(Id, Period), Alloc>, w: seq<Period>, start: real, om: int)
    requires RunSemi(desc, m, a, w, start, om).Some?
    ensures var run := RunSemi(desc, m, a, w, start, om).value;
      && (forall p :: p in run.rows <==> p in w)
      && (forall p :: p in run.rows ==>
            && run.rows[p].demand == DemandOf(a, m, p) && run.rows[p].description == desc
            && run.rows[p].ending == run.rows[p].beginning + run.rows[p].production - run.rows[p].demand)
      && (om > 0 ==> forall p :: p in run.rows ==> run.rows[p].ending >= 0.0)
      && (om > 0 && start >= 0.0 ==> run.inventory >= 0.0)
    decreases |w|
  {
    if |w| > 0 {
      RunSemiRows(desc, m, a, w[..|w| - 1], start, om);
      PrefixSnoc(w, |w|);
      assert w[..|w|] == w;
    }
  }

  /** The productions of the periods of w. */
  function Produced(rows: map<Period, SemiRow>, w: seq<Period>): real
    decreases |w|
  {
    if |w| == 0 then 0.0
    else Produced(rows, w[..|w| - 1]) + (if w[|w| - 1] in rows then rows[w[|w| - 1]].production else 0.0)
  }

  lemma {:induction false} ProducedUnchanged(rows: map<Period, SemiRow>, w: seq<Period>, p: Period, row: SemiRow)
    requires p !in w
    ensures Produced(rows[p := row], w) == Produced(rows, w)
    decreases |w|
  {
    if |w| > 0 {
      assert w[..|w| - 1] + [w[|w| - 1]] == w;
      ProducedUnchanged(rows, w[..|w| - 1], p, row);
    }
  }

  /** Semi-finished inventory is conserved: start + production - demand over all periods. */
  lemma {:induction false} RunSemiConserves(desc: string, m: Id, a: map<(Id, Period), Alloc>, w: seq<Period>, start: real, om: int)
    requires Distinct(w) && RunSemi(desc, m, a, w, start, om).Some?
    ensures var run := RunSemi(desc, m, a, w, start, om).value;
      run.inventory == start + Produced(run.rows, w) - MaterialDemand(a, m, w)
    decreases |w|
  {
    if |w| > 0 {
      var init := w[..|w| - 1];
      var p := w[|w| - 1];
      var before := RunSemi(desc, m, a, init, start, om).value;
      RunSemiConserves(desc, m, a, init, start, om);
      assert p !in init by {
        forall i | 0 <= i < |init| ensures init[i] != p {
          assert w[i] != w[|w| - 1];
        }
      }
      var row := SemiRowOf(desc, DemandOf(a, m, p), before.inventory, om);
      ProducedUnchanged(before.rows, init, p, row);
    }
  }

  /** The semi-finished loop of material m, from its semi-finished stock. */
  function MaterialSemi(reqs: map<Id, Requirement>, m: Id, a: map<(Id, Period), Alloc>, w: seq<Period>,
                        semiPool: Option<seq<StockRow>>, om: int): Option<SemiRun>
    requires m in reqs
  {
    RunSemi(reqs[m].description, m, a, w, InventoryOf(None, semiPool, m, SemiFinished), om)
  }

  predicate SemiPlanDefined(reqs: map<Id, Requirement>, a: map<(Id, Period), Alloc>, w: seq<Period>,
                            semiPool: Option<seq<StockRow>>, om: int)
  {
    forall m :: m in reqs ==> MaterialSemi(reqs, m, a, w, semiPool, om).Some?
  }

  function SemiRuns(reqs: map<Id, Requirement>, a: map<(Id, Period), Alloc>, w: seq<Period>,
                    semiPool: Option<seq<StockRow>>, om: int): map<Id, map<Period, SemiRow>>
    requires SemiPlanDefined(reqs, a, w, semiPool, om)
  {
    map m | m in reqs :: MaterialSemi(reqs, m, a, w, semiPool, om).value.rows
  }

  /** The semi-finished production plan; an empty by-period table fails like the purchase plan. */
  function SemiPlan(reqs: map<Id, Requirement>, a: map<(Id, Period), Alloc>, w: seq<Period>,
                    semiPool: Option<seq<StockRow>>, om: int): Option<map<(Id, Period), SemiRow>>
  {
    if a == map[] || !SemiPlanDefined(reqs, a, w, semiPool, om) then None
    else Some(Flatten(SemiRuns(reqs, a, w, semiPool, om)))
  }

  /** The semi-finished plan has a row for every (requirement, period), zero production included. */
  lemma SemiPlanRows(reqs: map<Id, Requirement>, a: map<(Id, Period), Alloc>, w: seq<Period>,
                     semiPool: Option<seq<StockRow>>, om: int, m: Id, p: Period)
    requires SemiPlan(reqs, a, w, semiPool, om).Some?
    ensures var plan := SemiPlan(reqs, a, w, semiPool, om).value;
      && ((m, p) in plan <==> m in reqs && p in w)
      && ((m, p) in plan ==> plan[(m, p)].demand == DemandOf(a, m, p) && plan[(m, p)].description == reqs[m].description)
  {
    if m in reqs {
      RunSemiRows(reqs[m].description, m, a, w, InventoryOf(None, semiPool, m, SemiFinished), om);
    }
  }
}
