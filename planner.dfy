/**
 * The finished-goods production planner (models/production_planner.py):
 * the constraint dictionary, the forecast and inventory lookups, the netting
 * loop of optimize_production_plan that carries each material's inventory
 * from month to month, and the manual adjustment of one plan row followed
 * by the re-chaining of that material's later months.
 *
 * The plan is a table keyed by (material, period): optimize_production_plan
 * builds one row per (material, month) and sorts them, so keys are unique.
 * As in the source, the stored production, beginning and ending quantities
 * are round()ed while the loop carries the exact inventory.
 */
module Planner {
  import opened Common
  import opened Netting

  /** A forecast row: its month, material and forecast quantity. */
  datatype ForecastRow = ForecastRow(period: Period, material: Id, value: real)

  /** One row of the production plan. */
  datatype ProductionRow = ProductionRow(demand: real, production: real, beginning: real, ending: real, coverage: Coverage)

  type Schedule = map<(Id, Period), ProductionRow>

  // ---------------------------------------------------------------------
  // Constraints and lookups
  // ---------------------------------------------------------------------

  /** The defaults of set_production_constraints. */
  const DefaultConstraints: map<string, real> := map[
    "min_service_level" := 0.95, "min_batch_size" := 100.0, "safety_stock_days" := 15.0,
    "max_inventory_days" := 60.0, "production_smoothing" := 0.3]

  /** min_batch_size, 100 when absent. */
  function BatchSize(c: map<string, real>): real
  {
    GetOr(c, "min_batch_size", 100.0)
  }

  /** safety_stock_days, 15 when absent. */
  function SafetyDays(c: map<string, real>): real
  {
    GetOr(c, "safety_stock_days", 15.0)
  }

  /** After set_production_constraints the planner uses the given batch size and safety days, or the defaults. */
  lemma MergedConstraints(given: map<string, real>)
    ensures BatchSize(Merge(DefaultConstraints, given)) == GetOr(given, "min_batch_size", 100.0)
    ensures SafetyDays(Merge(DefaultConstraints, given)) == GetOr(given, "safety_stock_days", 15.0)
    ensures Merge(DefaultConstraints, given).Keys == DefaultConstraints.Keys + given.Keys
  {
  }

  predicate Matches(r: ForecastRow, m: Id, p: Period)
  {
    r.material == m && r.period == p
  }

  /** The forecast of m in month p: the first matching row, or 0 when none matches. */
  function FirstForecast(rows: seq<ForecastRow>, m: Id, p: Period): (q: real)
    ensures (forall i :: 0 <= i < |rows| ==> !Matches(rows[i], m, p)) ==> q == 0.0
    ensures forall i :: 0 <= i < |rows| && Matches(rows[i], m, p) && (forall j :: 0 <= j < i ==> !Matches(rows[j], m, p)) ==>
      q == rows[i].value
    decreases |rows|
  {
    if |rows| == 0 then 0.0
    else if Matches(rows[0], m, p) then rows[0].value
    else
      var rest := FirstForecast(rows[1..], m, p);
      assert forall i :: 1 <= i < |rows| ==> rows[1..][i - 1] == rows[i];
      rest
  }

  /** get_forecast_demand: 0 without forecast data. */
  function ForecastDemand(forecast: Option<seq<ForecastRow>>, m: Id, p: Period): real
  {
    if forecast.None? then 0.0 else FirstForecast(forecast.value, m, p)
  }

  /** get_inventory_level: 0 without inventory data. */
  function InventoryLevel(inventory: Option<seq<StockRow>>, m: Id): real
  {
    if inventory.None? then 0.0 else FirstStock(inventory.value, m)
  }

  // ---------------------------------------------------------------------
  // The planning window
  // ---------------------------------------------------------------------

  /** The smallest year*12+month of the forecast. */
  function MinKey(rows: seq<ForecastRow>): (k: int)
    requires |rows| > 0
    ensures forall i :: 0 <= i < |rows| ==> k <= Key(rows[i].period)
    ensures exists i :: 0 <= i < |rows| && Key(rows[i].period) == k
    decreases |rows|
  {
    if |rows| == 1 then Key(rows[0].period)
    else
      var k := MinKey(rows[..|rows| - 1]);
      var last := Key(rows[|rows| - 1].period);
      assert forall i :: 0 <= i < |rows| - 1 ==> rows[..|rows| - 1][i] == rows[i];
      if last < k then last else k
  }

  /** The largest year*12+month of the forecast. */
  function MaxKey(rows: seq<ForecastRow>): (k: int)
    requires |rows| > 0
    ensures forall i :: 0 <= i < |rows| ==> Key(rows[i].period) <= k
    ensures exists i :: 0 <= i < |rows| && Key(rows[i].period) == k
    decreases |rows|
  {
    if |rows| == 1 then Key(rows[0].period)
    else
      var k := MaxKey(rows[..|rows| - 1]);
      var last := Key(rows[|rows| - 1].period);
      assert forall i :: 0 <= i < |rows| - 1 ==> rows[..|rows| - 1][i] == rows[i];
      if last > k then last else k
  }

  /** max_forecast_periods: the number of months from the first to the last forecast month. */
  function Span(rows: seq<ForecastRow>): int
    requires |rows| > 0
  {
    MaxKey(rows) - MinKey(rows) + 1
  }

  /** The horizon, lowered to the span when it exceeds it. */
  function ClampedHorizon(rows: seq<ForecastRow>, horizon: int): int
    requires |rows| > 0
  {
    if horizon > Span(rows) then Span(rows) else horizon
  }

  function ForecastPeriods(rows: seq<ForecastRow>): set<Period>
  {
    set r | r in rows :: r.period
  }

  function Materials(rows: seq<ForecastRow>): set<Id>
  {
    set r | r in rows :: r.material
  }

  /** time_periods: the distinct forecast months in order, cut to the clamped horizon. */
  function PlanMonths(rows: seq<ForecastRow>, horizon: int): seq<Period>
    requires |rows| > 0
  {
    Prefix(SortedPeriods(ForecastPeriods(rows)), ClampedHorizon(rows, horizon))
  }

  /** Months whose keys lie in [lo, hi] are at most hi - lo + 1, since keys are distinct. */
  lemma {:induction false} MonthCount(s: set<Period>, lo: int, hi: int)
    requires lo <= hi + 1
    requires forall p :: p in s ==> lo <= Key(p) <= hi
    ensures |s| <= hi - lo + 1
    decreases hi - lo
  {
    if s != {} {
      var top := set p | p in s && Key(p) == hi;
      var rest := s - top;
      MonthCount(rest, lo, hi - 1);
      if top != {} {
        var t :| t in top;
        forall q | q in top ensures q == t {
          KeyInjective(q, t);
        }
        assert top == {t};
      }
      assert s == rest + top;
    }
  }

  /** The forecast has at most Span distinct months. */
  lemma MonthsWithinSpan(rows: seq<ForecastRow>)
    requires |rows| > 0
    ensures |ForecastPeriods(rows)| <= Span(rows)
  {
    var lo, hi := MinKey(rows), MaxKey(rows);
    forall p | p in ForecastPeriods(rows) ensures lo <= Key(p) <= hi {
      var r :| r in rows && r.period == p;
      var i :| 0 <= i < |rows| && rows[i] == r;
    }
    MonthCount(ForecastPeriods(rows), lo, hi);
  }

  /**
   * Clamping the horizon to the span never changes the months planned: a
   * horizon above the span already keeps every distinct month.
   */
  lemma ClampIsRedundant(rows: seq<ForecastRow>, horizon: int)
    requires |rows| > 0
    ensures PlanMonths(rows, horizon) == Prefix(SortedPeriods(ForecastPeriods(rows)), horizon)
  {
    MonthsWithinSpan(rows);
  }

  /** The months are in order, distinct, forecast months, and as many as the horizon allows. */
  lemma PlanMonthsSpec(rows: seq<ForecastRow>, horizon: int)
    requires |rows| > 0
    ensures var w := PlanMonths(rows, horizon);
      && StrictlyIncreasing(w)
      && (forall p :: p in w ==> exists r :: r in rows && r.period == p)
      && |w| == PrefixLength(|ForecastPeriods(rows)|, horizon)
  {
    ClampIsRedundant(rows, horizon);
    var all := SortedPeriods(ForecastPeriods(rows));
    var w := PlanMonths(rows, horizon);
    assert w == all[..PrefixLength(|all|, horizon)];
    forall p | p in w ensures p in ForecastPeriods(rows) {
      assert p in all;
    }
  }

  // ---------------------------------------------------------------------
  // One month of one material
  // ---------------------------------------------------------------------

  /** The exact quantities of one month: net demand, production and ending inventory. */
  datatype Step = Step(net: real, production: real, ending: real)

  /** A positive net demand with a zero batch makes the source round a NaN, which raises. */
  predicate StepDefined(demand: real, inventory: real, batch: real, safetyDays: real)
  {
    NetDemand(demand, SafetyStock(demand, safetyDays), inventory) > 0.0 ==> batch != 0.0
  }

  function StepOf(demand: real, inventory: real, batch: real, safetyDays: real): Step
    requires StepDefined(demand, inventory, batch, safetyDays)
  {
    var net := NetDemand(demand, SafetyStock(demand, safetyDays), inventory);
    var production := if net > 0.0 then BatchProduction(net, batch) else 0.0;
    Step(net, production, inventory + production - demand)
  }

  /**
   * The netting rule: nothing is produced without net demand; otherwise at
   * least one batch and at least the net demand, in whole batches.
   */
  lemma StepProduction(demand: real, inventory: real, batch: real, safetyDays: real)
    requires StepDefined(demand, inventory, batch, safetyDays)
    ensures var s := StepOf(demand, inventory, batch, safetyDays);
      && s.net == Max(0.0, demand + SafetyStock(demand, safetyDays) - inventory)
      && (s.net <= 0.0 ==> s.production == 0.0)
      && (s.net > 0.0 && batch > 0.0 ==> s.production >= s.net && s.production >= batch && IsLotMultiple(s.production, batch))
      && s.ending == inventory + s.production - demand
  {
  }

  /** With a positive batch every month ends with at least its safety stock. */
  lemma StepSafe(demand: real, inventory: real, batch: real, safetyDays: real)
    requires StepDefined(demand, inventory, batch, safetyDays) && batch > 0.0
    ensures StepOf(demand, inventory, batch, safetyDays).ending >= SafetyStock(demand, safetyDays)
  {
    var s := StepOf(demand, inventory, batch, safetyDays);
    var safety := SafetyStock(demand, safetyDays);
    if s.net > 0.0 {
      assert s.net + inventory == demand + safety;
      assert s.production >= s.net;
    } else {
      assert inventory >= demand + safety;
    }
  }

  /** The stored row: rounded quantities, coverage from the exact ending inventory. */
  function RowOf(demand: real, inventory: real, s: Step): ProductionRow
  {
    ProductionRow(demand, Round(s.production) as real, Round(inventory) as real, Round(s.ending) as real, CoverageOf(s.ending, demand))
  }

  /** The result of one material's month loop: the carried inventory and the rows. */
  datatype MaterialRun = MaterialRun(inventory: real, rows: map<Period, ProductionRow>)

  /** One month of the loop for material m: the row of month p and the inventory handed on. */
  function Advance(forecast: seq<ForecastRow>, m: Id, p: Period, run: MaterialRun, batch: real, safetyDays: real): Option<MaterialRun>
  {
    var demand := FirstForecast(forecast, m, p);
    if !StepDefined(demand, run.inventory, batch, safetyDays) then None
    else
      var s := StepOf(demand, run.inventory, batch, safetyDays);
      Some(MaterialRun(s.ending, run.rows[p := RowOf(demand, run.inventory, s)]))
  }

  /** The month loop of optimize_production_plan for material m over the months w. */
  function RunMaterial(forecast: seq<ForecastRow>, m: Id, w: seq<Period>, start: real, batch: real, safetyDays: real): Option<MaterialRun>
    decreases |w|
  {
    if |w| == 0 then Some(MaterialRun(start, map[]))
    else
      var before := RunMaterial(forecast, m, w[..|w| - 1], start, batch, safetyDays);
      if before.None? then None else Advance(forecast, m, w[|w| - 1], before.value, batch, safetyDays)
  }

  /** The loop over the first i+1 months is the loop over the first i followed by month i. */
  lemma RunMaterialNext(forecast: seq<ForecastRow>, m: Id, w: seq<Period>, i: nat, start: real, batch: real, safetyDays: real)
    requires i < |w|
    ensures var before := RunMaterial(forecast, m, w[..i], start, batch, safetyDays);
      RunMaterial(forecast, m, w[..i + 1], start, batch, safetyDays) ==
        if before.None? then None else Advance(forecast, m, w[i], before.value, batch, safetyDays)
  {
    assert w[..i + 1][..i] == w[..i];
  }

  /** Once a month fails, the whole loop fails. */
  lemma {:induction false} RunMaterialFails(forecast: seq<ForecastRow>, m: Id, w: seq<Period>, n: nat,
                                            start: real, batch: real, safetyDays: real)
    requires n <= |w| && RunMaterial(forecast, m, w[..n], start, batch, safetyDays).None?
    ensures RunMaterial(forecast, m, w, start, batch, safetyDays).None?
    decreases |w| - n
  {
    if n < |w| {
      RunMaterialNext(forecast, m, w, n, start, batch, safetyDays);
      RunMaterialFails(forecast, m, w, n + 1, start, batch, safetyDays);
    } else {
      assert w[..n] == w;
    }
  }

  /** The first n months get a row each, and nothing else does. */
  lemma {:induction false} RunMaterialKeys(forecast: seq<ForecastRow>, m: Id, w: seq<Period>, n: nat,
                                           start: real, batch: real, safetyDays: real)
    requires n <= |w| && RunMaterial(forecast, m, w[..n], start, batch, safetyDays).Some?
    ensures forall p :: p in RunMaterial(forecast, m, w[..n], start, batch, safetyDays).value.rows <==> p in w[..n]
    decreases n
  {
    if n > 0 {
      var before := RunMaterial(forecast, m, w[..n - 1], start, batch, safetyDays);
      RunMaterialNext(forecast, m, w, n - 1, start, batch, safetyDays);
      RunMaterialKeys(forecast, m, w, n - 1, start, batch, safetyDays);
      AdvanceKeys(forecast, m, w[n - 1], before.value, batch, safetyDays);
      PrefixSnoc(w, n);
      KeysGrow(Advance(forecast, m, w[n - 1], before.value, batch, safetyDays).value.rows, before.value.rows,
               w[..n - 1], w[n - 1], w[..n]);
    }
  }

  /** Keys that grow by one month along with the months. */
  lemma KeysGrow(after: map<Period, ProductionRow>, before: map<Period, ProductionRow>, ws: seq<Period>, p: Period, ws': seq<Period>)
    requires forall q :: q in after <==> q in before || q == p
    requires forall q :: q in before <==> q in ws
    requires ws' == ws + [p]
    ensures forall q :: q in after <==> q in ws'
  {
  }

  /** A month adds exactly its own row. */
  lemma AdvanceKeys(forecast: seq<ForecastRow>, m: Id, p: Period, run: MaterialRun, batch: real, safetyDays: real)
    requires Advance(forecast, m, p, run, batch, safetyDays).Some?
    ensures forall q :: q in Advance(forecast, m, p, run, batch, safetyDays).value.rows <==> q in run.rows || q == p
  {
  }

  /** The row of month i is not overwritten by the later, distinct months. */
  lemma {:induction false} RunMaterialKeep(forecast: seq<ForecastRow>, m: Id, w: seq<Period>, i: nat, n: nat,
                                           start: real, batch: real, safetyDays: real)
    requires Distinct(w) && i < n <= |w|
    requires RunMaterial(forecast, m, w[..n], start, batch, safetyDays).Some?
    ensures RunMaterial(forecast, m, w[..i + 1], start, batch, safetyDays).Some?
    ensures var rows := RunMaterial(forecast, m, w[..n], start, batch, safetyDays).value.rows;
      var own := RunMaterial(forecast, m, w[..i + 1], start, batch, safetyDays).value.rows;
      w[i] in rows && w[i] in own && rows[w[i]] == own[w[i]]
    decreases n
  {
    RunMaterialNext(forecast, m, w, n - 1, start, batch, safetyDays);
    if n > i + 1 {
      RunMaterialKeep(forecast, m, w, i, n - 1, start, batch, safetyDays);
      assert w[n - 1] != w[i];
    }
  }

  /**
   * Month i of the loop starts from the inventory the first i months leave
   * (the initial inventory for the first month), and its row and the
   * inventory it hands on are those of StepOf.
   */
  lemma RunMaterialMonth(forecast: seq<ForecastRow>, m: Id, w: seq<Period>, i: nat,
                         start: real, batch: real, safetyDays: real)
    requires Distinct(w) && i < |w|
    requires RunMaterial(forecast, m, w, start, batch, safetyDays).Some?
    ensures RunMaterial(forecast, m, w[..i], start, batch, safetyDays).Some?
    ensures var before := RunMaterial(forecast, m, w[..i], start, batch, safetyDays).value.inventory;
      var demand := FirstForecast(forecast, m, w[i]);
      && (i == 0 ==> before == start)
      && StepDefined(demand, before, batch, safetyDays)
      && RunMaterial(forecast, m, w[..i + 1], start, batch, safetyDays).Some?
      && RunMaterial(forecast, m, w[..i + 1], start, batch, safetyDays).value.inventory == StepOf(demand, before, batch, safetyDays).ending
      && w[i] in RunMaterial(forecast, m, w, start, batch, safetyDays).value.rows
      && RunMaterial(forecast, m, w, start, batch, safetyDays).value.rows[w[i]] == RowOf(demand, before, StepOf(demand, before, batch, safetyDays))
  {
    assert w[..|w|] == w;
    RunMaterialKeep(forecast, m, w, i, |w|, start, batch, safetyDays);
    RunMaterialNext(forecast, m, w, i, start, batch, safetyDays);
  }

  /** Each month's stored beginning inventory is the previous month's stored ending inventory. */
  lemma RunMaterialChain(forecast: seq<ForecastRow>, m: Id, w: seq<Period>, i: nat,
                         start: real, batch: real, safetyDays: real)
    requires Distinct(w) && i + 1 < |w|
    requires RunMaterial(forecast, m, w, start, batch, safetyDays).Some?
    ensures var rows := RunMaterial(forecast, m, w, start, batch, safetyDays).value.rows;
      w[i] in rows && w[i + 1] in rows && rows[w[i + 1]].beginning == rows[w[i]].ending
  {
    RunMaterialMonth(forecast, m, w, i, start, batch, safetyDays);
    RunMaterialMonth(forecast, m, w, i + 1, start, batch, safetyDays);
  }

  // ---------------------------------------------------------------------
  // The whole plan
  // ---------------------------------------------------------------------

  /** The opening stock, batch size and safety days the loop of material m runs with. */
  function RunOf(forecast: seq<ForecastRow>, inventory: Option<seq<StockRow>>, c: map<string, real>, m: Id, w: seq<Period>): Option<MaterialRun>
  {
    RunMaterial(forecast, m, w, InventoryLevel(inventory, m), BatchSize(c), SafetyDays(c))
  }

  predicate ScheduleDefined(forecast: seq<ForecastRow>, inventory: Option<seq<StockRow>>, c: map<string, real>, w: seq<Period>)
  {
    forall m :: m in Materials(forecast) ==> RunOf(forecast, inventory, c, m, w).Some?
  }

  function MaterialRuns(forecast: seq<ForecastRow>, inventory: Option<seq<StockRow>>, c: map<string, real>, w: seq<Period>): map<Id, map<Period, ProductionRow>>
    requires ScheduleDefined(forecast, inventory, c, w)
  {
    map m | m in Materials(forecast) :: RunOf(forecast, inventory, c, m, w).value.rows
  }

  /**
   * optimize_production_plan: None without forecast data, for an empty
   * forecast (max() of nothing raises), for an empty month window (the
   * column-less empty table cannot be sorted, production_planner.py:273)
   * and when a month cannot be rounded; otherwise one row per forecast
   * material and planned month.
   */
  function OptimizedSchedule(forecast: Option<seq<ForecastRow>>, inventory: Option<seq<StockRow>>,
                             c: map<string, real>, horizon: int): Option<Schedule>
  {
    if forecast.None? || |forecast.value| == 0 then None
    else
      var w := PlanMonths(forecast.value, horizon);
      if |w| == 0 || !ScheduleDefined(forecast.value, inventory, c, w) then None
      else Some(Flatten(MaterialRuns(forecast.value, inventory, c, w)))
  }

  /** With a positive batch size the plan always exists once there is a forecast. */
  lemma {:induction false} RunMaterialDefined(forecast: seq<ForecastRow>, m: Id, w: seq<Period>, start: real, batch: real, safetyDays: real)
    requires batch > 0.0
    ensures RunMaterial(forecast, m, w, start, batch, safetyDays).Some?
    decreases |w|
  {
    if |w| > 0 {
      RunMaterialDefined(forecast, m, w[..|w| - 1], start, batch, safetyDays);
    }
  }

  /**
   * With a positive batch size a plan is produced exactly when there is a
   * forecast and the horizon keeps at least one of its months.
   */
  lemma ScheduleExists(forecast: Option<seq<ForecastRow>>, inventory: Option<seq<StockRow>>, c: map<string, real>, horizon: int)
    requires BatchSize(c) > 0.0
    ensures OptimizedSchedule(forecast, inventory, c, horizon).Some? <==>
      forecast.Some? && |forecast.value| > 0 && |PlanMonths(forecast.value, horizon)| > 0
  {
    if forecast.Some? && |forecast.value| > 0 {
      var w := PlanMonths(forecast.value, horizon);
      forall m | m in Materials(forecast.value) ensures RunOf(forecast.value, inventory, c, m, w).Some? {
        RunMaterialDefined(forecast.value, m, w, InventoryLevel(inventory, m), BatchSize(c), SafetyDays(c));
      }
    }
  }

  /** A zero horizon keeps no month, so no plan is produced and the stored one stays. */
  lemma ZeroHorizonHasNoPlan(forecast: Option<seq<ForecastRow>>, inventory: Option<seq<StockRow>>, c: map<string, real>)
    ensures OptimizedSchedule(forecast, inventory, c, 0).None?
  {
    if forecast.Some? && |forecast.value| > 0 {
      MonthsWithinSpan(forecast.value);
      assert |PlanMonths(forecast.value, 0)| == 0;
    }
  }

  /** The plan's rows are the rows of each forecast material's month loop. */
  lemma ScheduleIsRuns(forecast: Option<seq<ForecastRow>>, inventory: Option<seq<StockRow>>, c: map<string, real>,
                       horizon: int, m: Id, p: Period)
    requires OptimizedSchedule(forecast, inventory, c, horizon).Some?
    ensures forecast.Some? && |forecast.value| > 0
    ensures var w := PlanMonths(forecast.value, horizon);
      var plan := OptimizedSchedule(forecast, inventory, c, horizon).value;
      var run := RunOf(forecast.value, inventory, c, m, w);
      && (m in Materials(forecast.value) ==> run.Some?)
      && ((m, p) in plan <==> m in Materials(forecast.value) && run.Some? && p in run.value.rows)
      && ((m, p) in plan ==> plan[(m, p)] == run.value.rows[p])
  {
  }

  /** The plan has exactly one row per forecast material and planned month, with that month's forecast as demand. */
  lemma ScheduleShape(forecast: Option<seq<ForecastRow>>, inventory: Option<seq<StockRow>>, c: map<string, real>,
                      horizon: int, m: Id, p: Period)
    requires OptimizedSchedule(forecast, inventory, c, horizon).Some?
    ensures forecast.Some? && |forecast.value| > 0
    ensures var plan := OptimizedSchedule(forecast, inventory, c, horizon).value;
      && ((m, p) in plan <==> m in Materials(forecast.value) && p in PlanMonths(forecast.value, horizon))
      && ((m, p) in plan ==> plan[(m, p)].demand == FirstForecast(forecast.value, m, p))
  {
    ScheduleIsRuns(forecast, inventory, c, horizon, m, p);
    var rows := forecast.value;
    var w := PlanMonths(rows, horizon);
    if m in Materials(rows) {
      assert w[..|w|] == w;
      RunMaterialKeys(rows, m, w, |w|, InventoryLevel(inventory, m), BatchSize(c), SafetyDays(c));
      if p in w {
        PlanMonthsSpec(rows, horizon);
        StrictlyIncreasingIsDistinct(w);
        var i :| 0 <= i < |w| && w[i] == p;
        RunMaterialMonth(rows, m, w, i, InventoryLevel(inventory, m), BatchSize(c), SafetyDays(c));
      }
    }
  }

  lemma StrictlyIncreasingIsDistinct(w: seq<Period>)
    requires StrictlyIncreasing(w)
    ensures Distinct(w)
  {
    forall i, j | 0 <= i < j < |w| ensures w[i] != w[j] {
      StrictlyIncreasingDistinct(w, i, j);
    }
  }

  /**
   * The month loop, row by row: month i of material m starts from the
   * inventory of the first i months (the material's stock for the first),
   * and its stored row and the inventory it hands on are those of StepOf.
   */
  lemma ScheduleMonth(forecast: Option<seq<ForecastRow>>, inventory: Option<seq<StockRow>>, c: map<string, real>,
                      horizon: int, m: Id, i: nat)
    requires OptimizedSchedule(forecast, inventory, c, horizon).Some?
    requires m in Materials(forecast.value) && i < |PlanMonths(forecast.value, horizon)|
    ensures var w := PlanMonths(forecast.value, horizon);
      var plan := OptimizedSchedule(forecast, inventory, c, horizon).value;
      var before := RunOf(forecast.value, inventory, c, m, w[..i]);
      var demand := FirstForecast(forecast.value, m, w[i]);
      && before.Some? && (i == 0 ==> before.value.inventory == InventoryLevel(inventory, m))
      && StepDefined(demand, before.value.inventory, BatchSize(c), SafetyDays(c))
      && RunOf(forecast.value, inventory, c, m, w[..i + 1]).Some?
      && RunOf(forecast.value, inventory, c, m, w[..i + 1]).value.inventory ==
         StepOf(demand, before.value.inventory, BatchSize(c), SafetyDays(c)).ending
      && (m, w[i]) in plan
      && plan[(m, w[i])] == RowOf(demand, before.value.inventory, StepOf(demand, before.value.inventory, BatchSize(c), SafetyDays(c)))
  {
    var rows := forecast.value;
    var w := PlanMonths(rows, horizon);
    ScheduleIsRuns(forecast, inventory, c, horizon, m, w[i]);
    PlanMonthsSpec(rows, horizon);
    StrictlyIncreasingIsDistinct(w);
    RunMaterialMonth(rows, m, w, i, InventoryLevel(inventory, m), BatchSize(c), SafetyDays(c));
  }

  /**
   * With a positive batch size every planned month ends with at least its
   * safety stock; the stored, rounded ending inventory is within half a unit
   * of that.
   */
  lemma ScheduleSafe(forecast: Option<seq<ForecastRow>>, inventory: Option<seq<StockRow>>, c: map<string, real>,
                     horizon: int, m: Id, i: nat)
    requires OptimizedSchedule(forecast, inventory, c, horizon).Some? && BatchSize(c) > 0.0
    requires m in Materials(forecast.value) && i < |PlanMonths(forecast.value, horizon)|
    ensures var w := PlanMonths(forecast.value, horizon);
      var plan := OptimizedSchedule(forecast, inventory, c, horizon).value;
      var after := RunOf(forecast.value, inventory, c, m, w[..i + 1]);
      && (m, w[i]) in plan && after.Some?
      && after.value.inventory >= SafetyStock(plan[(m, w[i])].demand, SafetyDays(c))
      && plan[(m, w[i])].ending >= SafetyStock(plan[(m, w[i])].demand, SafetyDays(c)) - 0.5
  {
    ScheduleMonth(forecast, inventory, c, horizon, m, i);
    var w := PlanMonths(forecast.value, horizon);
    var before := RunOf(forecast.value, inventory, c, m, w[..i]).value.inventory;
    StepSafe(FirstForecast(forecast.value, m, w[i]), before, BatchSize(c), SafetyDays(c));
  }

  /** In the optimized plan each month begins with the stored ending inventory of the month before. */
  lemma ScheduleChain(forecast: Option<seq<ForecastRow>>, inventory: Option<seq<StockRow>>, c: map<string, real>,
                      horizon: int, m: Id, i: nat)
    requires OptimizedSchedule(forecast, inventory, c, horizon).Some?
    requires m in Materials(forecast.value) && i + 1 < |PlanMonths(forecast.value, horizon)|
    ensures var w := PlanMonths(forecast.value, horizon);
      var plan := OptimizedSchedule(forecast, inventory, c, horizon).value;
      (m, w[i]) in plan && (m, w[i + 1]) in plan && plan[(m, w[i + 1])].beginning == plan[(m, w[i])].ending
  {
    ScheduleRowEnds(forecast, inventory, c, horizon, m, i);
    ScheduleRowEnds(forecast, inventory, c, horizon, m, i + 1);
  }

  /** Month i's stored inventories are the rounded inventories before and after its step. */
  lemma ScheduleRowEnds(forecast: Option<seq<ForecastRow>>, inventory: Option<seq<StockRow>>, c: map<string, real>,
                        horizon: int, m: Id, i: nat)
    requires OptimizedSchedule(forecast, inventory, c, horizon).Some?
    requires m in Materials(forecast.value) && i < |PlanMonths(forecast.value, horizon)|
    ensures var w := PlanMonths(forecast.value, horizon);
      var plan := OptimizedSchedule(forecast, inventory, c, horizon).value;
      var before := RunOf(forecast.value, inventory, c, m, w[..i]);
      var after := RunOf(forecast.value, inventory, c, m, w[..i + 1]);
      && before.Some? && after.Some? && (m, w[i]) in plan
      && plan[(m, w[i])].beginning == Round(before.value.inventory) as real
      && plan[(m, w[i])].ending == Round(after.value.inventory) as real
  {
    ScheduleMonth(forecast, inventory, c, horizon, m, i);
  }

  // ---------------------------------------------------------------------
  // Adjustment and propagation
  // ---------------------------------------------------------------------

  /** A row restarted from beginning inventory b: ending and coverage recomputed, production and demand kept. */
  function Rechained(r: ProductionRow, b: real): (r': ProductionRow)
  {
    r.(beginning := b, ending := b + r.production - r.demand, coverage := CoverageOf(b + r.production - r.demand, r.demand))
  }

  /** adjust_production_plan's update of the row itself. */
  function Adjusted(r: ProductionRow, newProduction: real): (r': ProductionRow)
    ensures r'.production == newProduction && r'.demand == r.demand && r'.beginning == r.beginning
    ensures r'.ending == r.beginning + newProduction - r.demand
    ensures r'.coverage == CoverageOf(r'.ending, r.demand)
  {
    Rechained(r.(production := newProduction), r.beginning)
  }

  /** plan_months: the distinct months of the plan in order. */
  function ScheduleMonths(plan: Schedule): seq<Period>
  {
    SortedPeriods(set k | k in plan :: k.1)
  }

  /** The index of the first occurrence of month p, or -1. */
  function IndexOf(months: seq<Period>, p: Period): (i: int)
    ensures -1 <= i < |months|
    ensures i >= 0 ==> months[i] == p && forall j :: 0 <= j < i ==> months[j] != p
    ensures i == -1 <==> p !in months
    decreases |months|
  {
    if |months| == 0 then -1
    else if months[0] == p then 0
    else
      var i := IndexOf(months[1..], p);
      assert p in months <==> p in months[1..] by {
        assert months == [months[0]] + months[1..];
      }
      if i == -1 then -1 else i + 1
  }

  /** One iteration of the re-chaining loop, for month index i. */
  function StepAt(plan: Schedule, m: Id, months: seq<Period>, i: nat): Schedule
    requires 1 <= i < |months|
  {
    var cur, prev := (m, months[i]), (m, months[i - 1]);
    if cur in plan && prev in plan then plan[cur := Rechained(plan[cur], plan[prev].ending)] else plan
  }

  /** The re-chaining loop over the month indices lo..hi-1. */
  function Rechain(plan: Schedule, m: Id, months: seq<Period>, lo: nat, hi: nat): Schedule
    requires 1 <= lo && hi <= |months|
    decreases hi
  {
    if hi <= lo then plan else StepAt(Rechain(plan, m, months, lo, hi - 1), m, months, hi - 1)
  }

  /**
   * propagate_inventory_changes over the plan months `months`: a no-op when
   * p is not among them or is the last one.
   */
  function Propagated(plan: Schedule, m: Id, months: seq<Period>, p: Period): Schedule
  {
    var i := IndexOf(months, p);
    if i == -1 || i == |months| - 1 then plan else Rechain(plan, m, months, i + 1, |months|)
  }

  /**
   * adjust_production_plan: refused (None) without a plan or without a row
   * for (m, p); otherwise the row is adjusted and its later months re-chained.
   */
  function AdjustedSchedule(plan: Option<Schedule>, m: Id, p: Period, newProduction: real): (r: Option<Schedule>)
    ensures r.Some? <==> plan.Some? && (m, p) in plan.value
  {
    if plan.None? || (m, p) !in plan.value then None
    else
      var adjusted := plan.value[(m, p) := Adjusted(plan.value[(m, p)], newProduction)];
      Some(Propagated(adjusted, m, ScheduleMonths(adjusted), p))
  }

  /** The loop never adds or removes rows. */
  lemma {:induction false} RechainKeys(plan: Schedule, m: Id, months: seq<Period>, lo: nat, hi: nat)
    requires 1 <= lo && hi <= |months|
    ensures Rechain(plan, m, months, lo, hi).Keys == plan.Keys
    decreases hi
  {
    if hi > lo {
      RechainKeys(plan, m, months, lo, hi - 1);
    }
  }

  /** A row of another material, or of a month the loop does not visit, keeps its value. */
  lemma {:induction false} RechainOutside(plan: Schedule, m: Id, months: seq<Period>, lo: nat, hi: nat, k: (Id, Period))
    requires 1 <= lo && hi <= |months| && k in plan
    requires k.0 != m || forall j :: lo <= j < hi ==> months[j] != k.1
    ensures k in Rechain(plan, m, months, lo, hi) && Rechain(plan, m, months, lo, hi)[k] == plan[k]
    decreases hi
  {
    if hi > lo {
      RechainOutside(plan, m, months, lo, hi - 1, k);
    }
  }

  /** The loop changes only beginning, ending and coverage. */
  lemma {:induction false} RechainQuantities(plan: Schedule, m: Id, months: seq<Period>, lo: nat, hi: nat, k: (Id, Period))
    requires 1 <= lo && hi <= |months| && k in plan
    ensures k in Rechain(plan, m, months, lo, hi)
    ensures var r := Rechain(plan, m, months, lo, hi)[k];
      r.production == plan[k].production && r.demand == plan[k].demand
    decreases hi
  {
    RechainKeys(plan, m, months, lo, hi);
    if hi > lo {
      RechainQuantities(plan, m, months, lo, hi - 1, k);
    }
  }

  /** Once the loop has passed index j, the row of month j is final. */
  lemma {:induction false} RechainFinal(plan: Schedule, m: Id, months: seq<Period>, lo: nat, hi: nat, j: nat)
    requires 1 <= lo <= j < hi <= |months| && Distinct(months) && (m, months[j]) in plan
    ensures (m, months[j]) in Rechain(plan, m, months, lo, hi) && (m, months[j]) in Rechain(plan, m, months, lo, j + 1)
    ensures Rechain(plan, m, months, lo, hi)[(m, months[j])] == Rechain(plan, m, months, lo, j + 1)[(m, months[j])]
    decreases hi
  {
    RechainKeys(plan, m, months, lo, hi);
    RechainKeys(plan, m, months, lo, j + 1);
    if hi > j + 1 {
      RechainFinal(plan, m, months, lo, hi - 1, j);
      RechainKeys(plan, m, months, lo, hi - 1);
      assert months[hi - 1] != months[j];
    }
  }

  /**
   * At a visited index j the row of month j restarts from the final ending
   * inventory of month j-1 when that month has a row, and is left as it was
   * when it has none.
   */
  lemma RechainRow(plan: Schedule, m: Id, months: seq<Period>, lo: nat, hi: nat, j: nat)
    requires 1 <= lo <= j < hi <= |months| && Distinct(months) && (m, months[j]) in plan
    ensures var r := Rechain(plan, m, months, lo, hi);
      && (m, months[j]) in r
      && ((m, months[j - 1]) in plan ==>
            (m, months[j - 1]) in r && r[(m, months[j])] == Rechained(plan[(m, months[j])], r[(m, months[j - 1])].ending))
      && ((m, months[j - 1]) !in plan ==> r[(m, months[j])] == plan[(m, months[j])])
  {
    var cur, prev := (m, months[j]), (m, months[j - 1]);
    var before := Rechain(plan, m, months, lo, j);
    RechainKeys(plan, m, months, lo, hi);
    RechainKeys(plan, m, months, lo, j);
    RechainFinal(plan, m, months, lo, hi, j);
    assert Rechain(plan, m, months, lo, j + 1) == StepAt(before, m, months, j);
    forall i | lo <= i < j ensures months[i] != cur.1 {
      assert i != j;
    }
    RechainOutside(plan, m, months, lo, j, cur);
    if prev in plan {
      if j - 1 >= lo {
        RechainFinal(plan, m, months, lo, hi, j - 1);
      } else {
        forall i | lo <= i < hi ensures months[i] != prev.1 {
          assert i != j - 1;
        }
        RechainOutside(plan, m, months, lo, hi, prev);
      }
    }
  }

  /** The plan months are ordered, distinct, and exactly the months that have a row. */
  lemma ScheduleMonthsSpec(plan: Schedule)
    ensures var months := ScheduleMonths(plan);
      && StrictlyIncreasing(months) && Distinct(months)
      && (forall k :: k in plan ==> k.1 in months)
      && (forall q :: q in months ==> exists k :: k in plan && k.1 == q)
  {
    var months := ScheduleMonths(plan);
    StrictlyIncreasingIsDistinct(months);
    forall k | k in plan ensures k.1 in months {
      assert k.1 in (set k | k in plan :: k.1);
    }
  }

  lemma ScheduleMonthOf(plan: Schedule, k: (Id, Period))
    requires k in plan
    ensures k.1 in ScheduleMonths(plan)
  {
    assert k.1 in (set k | k in plan :: k.1);
  }

  lemma ScheduleMonthsDistinct(plan: Schedule)
    ensures Distinct(ScheduleMonths(plan))
  {
    StrictlyIncreasingIsDistinct(ScheduleMonths(plan));
  }

  /** Plans with the same rows have the same months. */
  lemma ScheduleMonthsOfKeys(a: Schedule, b: Schedule)
    requires a.Keys == b.Keys
    ensures ScheduleMonths(a) == ScheduleMonths(b)
  {
    assert (set k | k in a :: k.1) == (set k | k in b :: k.1);
  }

  /** Propagation never adds or removes rows. */
  lemma PropagatedKeys(plan: Schedule, m: Id, months: seq<Period>, p: Period)
    ensures Propagated(plan, m, months, p).Keys == plan.Keys
  {
    var i := IndexOf(months, p);
    if i != -1 && i != |months| - 1 {
      RechainKeys(plan, m, months, i + 1, |months|);
    }
  }

  /** Propagation never changes a production or a demand. */
  lemma PropagatedQuantities(plan: Schedule, m: Id, months: seq<Period>, p: Period, k: (Id, Period))
    requires k in plan
    ensures k in Propagated(plan, m, months, p)
    ensures Propagated(plan, m, months, p)[k].production == plan[k].production
    ensures Propagated(plan, m, months, p)[k].demand == plan[k].demand
  {
    var i := IndexOf(months, p);
    if i != -1 && i != |months| - 1 {
      RechainQuantities(plan, m, months, i + 1, |months|, k);
    }
  }

  /** Over ordered months, rows of other materials and rows of month p and earlier are left alone. */
  lemma PropagatedFrame(plan: Schedule, m: Id, months: seq<Period>, p: Period, k: (Id, Period))
    requires StrictlyIncreasing(months)
    requires k in plan && (k.0 != m || Key(k.1) <= Key(p))
    ensures k in Propagated(plan, m, months, p) && Propagated(plan, m, months, p)[k] == plan[k]
  {
    var i := IndexOf(months, p);
    if i != -1 && i != |months| - 1 {
      if k.0 == m {
        forall j | i + 1 <= j < |months| ensures months[j] != k.1 {
          assert Key(months[i]) < Key(months[j]);
        }
      }
      RechainOutside(plan, m, months, i + 1, |months|, k);
    }
  }

  /** Starting from a month without rows, propagation changes nothing. */
  lemma PropagatedUnknownMonth(plan: Schedule, m: Id, p: Period)
    requires forall k :: k in plan ==> k.1 != p
    ensures Propagated(plan, m, ScheduleMonths(plan), p) == plan
  {
    ScheduleMonthsSpec(plan);
    assert p !in ScheduleMonths(plan);
  }

  /** Starting from the last month of the plan, propagation changes nothing. */
  lemma PropagatedLastMonth(plan: Schedule, m: Id, p: Period)
    requires forall k :: k in plan ==> Key(k.1) <= Key(p)
    ensures Propagated(plan, m, ScheduleMonths(plan), p) == plan
  {
    var months := ScheduleMonths(plan);
    var i := IndexOf(months, p);
    if i >= 0 {
      var last := months[|months| - 1];
      ScheduleMonthHasRow(plan, last);
      var k :| k in plan && k.1 == last;
      assert Key(last) <= Key(months[i]);
    }
  }

  lemma ScheduleMonthHasRow(plan: Schedule, q: Period)
    requires q in ScheduleMonths(plan)
    ensures exists k :: k in plan && k.1 == q
  {
  }

  /**
   * After month p, every row of m whose previous month also has a row of m
   * begins with that row's new ending inventory, and its ending inventory
   * and coverage follow; a row whose previous month has none is left as it
   * was.
   */
  lemma PropagatedChain(plan: Schedule, m: Id, months: seq<Period>, p: Period, j: nat)
    requires Distinct(months) && 0 <= IndexOf(months, p) < j < |months| && (m, months[j]) in plan
    ensures var r := Propagated(plan, m, months, p);
      && (m, months[j]) in r
      && ((m, months[j - 1]) in plan ==>
            (m, months[j - 1]) in r && r[(m, months[j])] == Rechained(plan[(m, months[j])], r[(m, months[j - 1])].ending))
      && ((m, months[j - 1]) !in plan ==> r[(m, months[j])] == plan[(m, months[j])])
  {
    RechainRow(plan, m, months, IndexOf(months, p) + 1, |months|, j);
  }

  /**
   * An accepted adjustment keeps the rows, sets the adjusted row, and leaves
   * other materials and the earlier months of m alone.
   */
  lemma AdjustedRows(plan: Option<Schedule>, m: Id, p: Period, x: real, k: (Id, Period))
    requires AdjustedSchedule(plan, m, p, x).Some?
    ensures var r := AdjustedSchedule(plan, m, p, x).value;
      && r.Keys == plan.value.Keys
      && (m, p) in r && r[(m, p)] == Adjusted(plan.value[(m, p)], x)
      && (k in plan.value && (k.0 != m || Key(k.1) < Key(p)) ==> k in r && r[k] == plan.value[k])
  {
    var up := plan.value[(m, p) := Adjusted(plan.value[(m, p)], x)];
    var months := ScheduleMonths(up);
    PropagatedKeys(up, m, months, p);
    PropagatedFrame(up, m, months, p, (m, p));
    if k in plan.value && (k.0 != m || Key(k.1) < Key(p)) {
      PropagatedFrame(up, m, months, p, k);
    }
  }

  /** The adjusted ending inventory becomes the beginning inventory of the next plan month of m. */
  lemma AdjustedFlowsOn(plan: Option<Schedule>, m: Id, p: Period, x: real, months: seq<Period>)
    requires AdjustedSchedule(plan, m, p, x).Some? && months == ScheduleMonths(plan.value)
    requires IndexOf(months, p) + 1 < |months| && (m, months[IndexOf(months, p) + 1]) in plan.value
    ensures var next := (m, months[IndexOf(months, p) + 1]);
      var r := AdjustedSchedule(plan, m, p, x).value;
      next in r && (m, p) in r && r[next].beginning == r[(m, p)].ending
  {
    var up := plan.value[(m, p) := Adjusted(plan.value[(m, p)], x)];
    AdjustedIsPropagated(plan, m, p, x);
    ScheduleMonthsDistinct(plan.value);
    ScheduleMonthOf(plan.value, (m, p));
    PropagatedFlowsOn(up, m, months, p);
  }

  /** Propagation from month p hands p's ending inventory to the next month's row of m. */
  lemma PropagatedFlowsOn(plan: Schedule, m: Id, months: seq<Period>, p: Period)
    requires Distinct(months) && 0 <= IndexOf(months, p) && IndexOf(months, p) + 1 < |months|
    requires (m, p) in plan && (m, months[IndexOf(months, p) + 1]) in plan
    ensures var next := (m, months[IndexOf(months, p) + 1]);
      var r := Propagated(plan, m, months, p);
      next in r && (m, p) in r && r[next].beginning == r[(m, p)].ending
  {
    var j := IndexOf(months, p) + 1;
    assert months[j - 1] == p;
    PropagatedChain(plan, m, months, p, j);
  }

  /** The plan months after an adjustment are those before it. */
  lemma AdjustedIsPropagated(plan: Option<Schedule>, m: Id, p: Period, x: real)
    requires plan.Some? && (m, p) in plan.value
    ensures AdjustedSchedule(plan, m, p, x) ==
      Some(Propagated(plan.value[(m, p) := Adjusted(plan.value[(m, p)], x)], m, ScheduleMonths(plan.value), p))
  {
    ScheduleMonthsOfKeys(plan.value[(m, p) := Adjusted(plan.value[(m, p)], x)], plan.value);
  }

  // ---------------------------------------------------------------------
  // The loops of the planner
  // ---------------------------------------------------------------------

  /** One more row of the forecast moves the smallest and largest key at most to its own. */
  lemma KeyBoundsStep(rows: seq<ForecastRow>, i: nat)
    requires 1 <= i < |rows|
    ensures var k := Key(rows[i].period);
      && MinKey(rows[..i + 1]) == (if k < MinKey(rows[..i]) then k else MinKey(rows[..i]))
      && MaxKey(rows[..i + 1]) == (if k > MaxKey(rows[..i]) then k else MaxKey(rows[..i]))
  {
    assert rows[..i + 1][..i] == rows[..i];
  }

  /** max_forecast_periods, by one pass over the forecast. */
  method ForecastSpan(rows: seq<ForecastRow>) returns (span: int)
    requires |rows| > 0
    ensures span == Span(rows)
  {
    var lo := Key(rows[0].period);
    var hi := lo;
    var i := 1;
    while i < |rows|
      invariant 1 <= i <= |rows|
      invariant lo == MinKey(rows[..i]) && hi == MaxKey(rows[..i])
    {
      KeyBoundsStep(rows, i);
      var k := Key(rows[i].period);
      if k < lo {
        lo := k;
      }
      if k > hi {
        hi := k;
      }
      i := i + 1;
    }
    assert rows[..i] == rows;
    span := hi - lo + 1;
  }

  /** The body of the month loop: production by the batch rule and the stored row. */
  method ProduceMonth(demand: real, inventory: real, batch: real, safetyDays: real) returns (row: ProductionRow, ending: real)
    requires StepDefined(demand, inventory, batch, safetyDays)
    ensures ending == StepOf(demand, inventory, batch, safetyDays).ending
    ensures row == RowOf(demand, inventory, StepOf(demand, inventory, batch, safetyDays))
  {
    var safety := SafetyStock(demand, safetyDays);
    var net := NetDemand(demand, safety, inventory);
    var production := if net > 0.0 then BatchProduction(net, batch) else 0.0;
    ending := inventory + production - demand;
    row := ProductionRow(demand, Round(production) as real, Round(inventory) as real, Round(ending) as real, CoverageOf(ending, demand));
  }

  /** The month loop of one material. */
  method PlanMaterial(forecast: seq<ForecastRow>, m: Id, w: seq<Period>, start: real, batch: real, safetyDays: real)
    returns (r: Option<MaterialRun>)
    ensures r == RunMaterial(forecast, m, w, start, batch, safetyDays)
  {
    var inventory := start;
    var rows: map<Period, ProductionRow> := map[];
    var i := 0;
    while i < |w|
      invariant 0 <= i <= |w|
      invariant RunMaterial(forecast, m, w[..i], start, batch, safetyDays) == Some(MaterialRun(inventory, rows))
    {
      var p := w[i];
      var demand := FirstForecast(forecast, m, p);
      var safety := SafetyStock(demand, safetyDays);
      var net := NetDemand(demand, safety, inventory);
      RunMaterialNext(forecast, m, w, i, start, batch, safetyDays);
      if net > 0.0 && batch == 0.0 {
        RunMaterialFails(forecast, m, w, i + 1, start, batch, safetyDays);
        return None;
      }
      var row, ending := ProduceMonth(demand, inventory, batch, safetyDays);
      rows := rows[p := row];
      inventory := ending;
      i := i + 1;
    }
    assert w[..i] == w;
    r := Some(MaterialRun(inventory, rows));
  }

  /** The month loop of material m, from its stock and the constraints. */
  method MaterialSchedule(forecast: seq<ForecastRow>, inventory: Option<seq<StockRow>>, c: map<string, real>, m: Id, w: seq<Period>)
    returns (run: Option<MaterialRun>)
    ensures run == RunOf(forecast, inventory, c, m, w)
  {
    run := PlanMaterial(forecast, m, w, InventoryLevel(inventory, m), BatchSize(c), SafetyDays(c));
  }

  /** Runs collected material by material are the runs of the plan. */
  lemma ScheduleRunsAre(forecast: seq<ForecastRow>, inventory: Option<seq<StockRow>>, c: map<string, real>, w: seq<Period>,
                        runs: map<Id, map<Period, ProductionRow>>)
    requires runs.Keys == Materials(forecast)
    requires forall m :: m in runs ==> RunOf(forecast, inventory, c, m, w).Some?
    requires forall m :: m in runs ==> runs[m] == RunOf(forecast, inventory, c, m, w).value.rows
    ensures ScheduleDefined(forecast, inventory, c, w) && runs == MaterialRuns(forecast, inventory, c, w)
  {
  }

  /** The material loop of optimize_production_plan. */
  method CollectSchedule(forecast: seq<ForecastRow>, inventory: Option<seq<StockRow>>, c: map<string, real>, w: seq<Period>)
    returns (r: Option<map<Id, map<Period, ProductionRow>>>)
    ensures r.Some? <==> ScheduleDefined(forecast, inventory, c, w)
    ensures r.Some? ==> r.value == MaterialRuns(forecast, inventory, c, w)
  {
    var runs: map<Id, map<Period, ProductionRow>> := map[];
    var todo := Materials(forecast);
    while todo != {}
      invariant todo <= Materials(forecast)
      invariant runs.Keys == Materials(forecast) - todo
      invariant forall m :: m in runs ==> RunOf(forecast, inventory, c, m, w).Some?
      invariant forall m :: m in runs ==> runs[m] == RunOf(forecast, inventory, c, m, w).value.rows
      decreases todo
    {
      var m :| m in todo;
      var run := MaterialSchedule(forecast, inventory, c, m, w);
      if run.None? {
        return None;
      }
      runs := runs[m := run.value.rows];
      todo := todo - {m};
    }
    ScheduleRunsAre(forecast, inventory, c, w, runs);
    r := Some(runs);
  }

  /** The search for the starting month in propagate_inventory_changes. */
  method FindMonth(months: seq<Period>, p: Period) returns (i: int)
    ensures i == IndexOf(months, p)
  {
    i := 0;
    while i < |months|
      invariant 0 <= i <= |months|
      invariant forall j :: 0 <= j < i ==> months[j] != p
    {
      if months[i] == p {
        return;
      }
      i := i + 1;
    }
    i := -1;
  }

  /** The re-chaining loop of propagate_inventory_changes, from month index lo to the last month. */
  method RechainFrom(plan: Schedule, m: Id, months: seq<Period>, lo: nat) returns (r: Schedule)
    requires 1 <= lo <= |months|
    ensures r == Rechain(plan, m, months, lo, |months|)
  {
    r := plan;
    var i := lo;
    while i < |months|
      invariant lo <= i <= |months|
      invariant r == Rechain(plan, m, months, lo, i)
    {
      var cur, prev := (m, months[i]), (m, months[i - 1]);
      if cur in r && prev in r {
        var row := r[cur];
        var beginning := r[prev].ending;
        var ending := beginning + row.production - row.demand;
        r := r[cur := row.(beginning := beginning, ending := ending, coverage := CoverageOf(ending, row.demand))];
      }
      i := i + 1;
    }
  }

  // ---------------------------------------------------------------------
  // The planner object
  // ---------------------------------------------------------------------

  /** The ProductionPlanner class: its loaded tables, constraints and current plan. */
  class ProductionPlanner {
    var forecastData: Option<seq<ForecastRow>>
    var inventoryData: Option<seq<StockRow>>
    var productionPlan: Option<Schedule>
    var constraints: map<string, real>

    constructor()
      ensures forecastData.None? && inventoryData.None? && productionPlan.None? && constraints == map[]
    {
      forecastData := None;
      inventoryData := None;
      productionPlan := None;
      constraints := map[];
    }

    /** load_forecast_data, for a table that has the required columns. */
    method LoadForecastData(rows: seq<ForecastRow>)
      modifies this`forecastData
      ensures forecastData == Some(rows)
    {
      forecastData := Some(rows);
    }

    /** load_inventory_data, for a table that has the required columns. */
    method LoadInventoryData(rows: seq<StockRow>)
      modifies this`inventoryData
      ensures inventoryData == Some(rows)
    {
      inventoryData := Some(rows);
    }

    /** set_production_constraints: anything but a dictionary (None) is refused and nothing changes. */
    method SetProductionConstraints(given: Option<map<string, real>>) returns (ok: bool)
      modifies this`constraints
      ensures ok <==> given.Some?
      ensures constraints == if ok then Merge(DefaultConstraints, given.value) else old(constraints)
    {
      if given.None? {
        return false;
      }
      constraints := Merge(DefaultConstraints, given.value);
      ok := true;
    }

    /** get_inventory_level: 0 without inventory data, else the first inventory row of m (0 when it has none). */
    function GetInventoryLevel(m: Id): (q: real)
      reads this`inventoryData
      ensures inventoryData.None? ==> q == 0.0
      ensures inventoryData.Some? ==> q == FirstStock(inventoryData.value, m)
    {
      InventoryLevel(inventoryData, m)
    }

    /** get_forecast_demand: 0 without forecast data, else the first forecast row of m in month p (0 when it has none). */
    function GetForecastDemand(m: Id, p: Period): (q: real)
      reads this`forecastData
      ensures forecastData.None? ==> q == 0.0
      ensures forecastData.Some? ==> q == FirstForecast(forecastData.value, m, p)
    {
      ForecastDemand(forecastData, m, p)
    }

    /** optimize_production_plan: the plan is stored only when one is produced. */
    method OptimizeProductionPlan(horizon: int) returns (r: Option<Schedule>)
      modifies this`productionPlan
      ensures r == OptimizedSchedule(forecastData, inventoryData, constraints, horizon)
      ensures productionPlan == if r.Some? then r else old(productionPlan)
    {
      if forecastData.None? {
        return None;
      }
      var rows := forecastData.value;
      if |rows| == 0 {
        return None;
      }
      var span := ForecastSpan(rows);
      var h := if horizon > span then span else horizon;
      var w := Prefix(SortedPeriods(ForecastPeriods(rows)), h);
      if |w| == 0 {
        return None;
      }
      var runs := CollectSchedule(rows, inventoryData, constraints, w);
      if runs.None? {
        return None;
      }
      r := Some(Flatten(runs.value));
      productionPlan := r;
    }

    /** propagate_inventory_changes: re-chains the months of m after month p. */
    method PropagateInventoryChanges(m: Id, p: Period)
      modifies this`productionPlan
      ensures productionPlan == if old(productionPlan).None? then None
        else Some(Propagated(old(productionPlan).value, m, ScheduleMonths(old(productionPlan).value), p))
    {
      if productionPlan.None? {
        return;
      }
      var plan := productionPlan.value;
      var months := ScheduleMonths(plan);
      var start := FindMonth(months, p);
      if start == -1 || start == |months| - 1 {
        return;
      }
      var rechained := RechainFrom(plan, m, months, start + 1);
      productionPlan := Some(rechained);
    }

    /** adjust_production_plan: refused without a plan or without a row for (m, p). */
    method AdjustProductionPlan(m: Id, p: Period, newProduction: real) returns (ok: bool)
      modifies this`productionPlan
      ensures ok <==> old(productionPlan).Some? && (m, p) in old(productionPlan).value
      ensures productionPlan == if ok then AdjustedSchedule(old(productionPlan), m, p, newProduction) else old(productionPlan)
    {
      if productionPlan.None? || (m, p) !in productionPlan.value {
        return false;
      }
      var plan := productionPlan.value;
      var row := plan[(m, p)];
      var ending := row.beginning + newProduction - row.demand;
      var adjusted := row.(production := newProduction, ending := ending, coverage := CoverageOf(ending, row.demand));
      assert adjusted == Adjusted(row, newProduction);
      productionPlan := Some(plan[(m, p) := adjusted]);
      PropagateInventoryChanges(m, p);
      ok := true;
    }
  }
}
