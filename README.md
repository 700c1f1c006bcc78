# Production planning engine: BOM explosion, MRP netting and the monthly production plan

This project models the planning core of a small production-planning
application for a manufacturer. The core has three classes:

- **the BOM manager** (`production_planning_system/models/bom_manager.py`)
  - Reads bill-of-materials rows (parent, child, quantity per parent, optional
    descriptions and types) into a directed graph.
  - Infers a role for every untyped material from its edges: Finished, SemiFinished,
    Raw or Unknown.
  - Checks the hierarchy rules and answers child, parent and type queries.
  - Explodes a product breadth-first into its leaf components, with the total
    quantity per product unit and the shallowest level.
  - Turns a production plan into raw-material and semi-finished requirements.
- **the MRP calculator** (`production_planning_system/models/mrp_calculator.py`)
  - Asks the BOM manager for requirements.
  - Spreads each requirement over the first `planning_horizon` months of the
    production plan, in proportion to planned output, or evenly when nothing is
    planned.
  - Nets every raw material month by month against inventory and a safety stock. A
    purchase respects the supplier's minimum order quantity and the order multiple.
  - Does the same for semi-finished parts: production is rounded up to the order
    multiple.
  - Reports the total purchase cost.
- **the production planner** (`models/production_planner.py`)
  - Builds a month-by-month production plan per finished material from a forecast and
    opening inventories, under a minimum batch size and a safety-stock rule.
  - Lets a planner override one month's production.
  - Re-chains the opening and closing inventories of the following months.

## How the model is organised

- **Values**
  - Quantities are `real`. The source's floats are modelled as exact rationals.
  - A planning period is `Period(year, month)`, ordered by the key `year*12+month`.
  - Tables are Dafny maps keyed by material or by (material, period).
- **The three classes** are Dafny classes.
  - Their fields hold the loaded tables and the computed results.
  - Every method that changes a field has a `modifies` clause naming the object.
  - Methods that only compute from the fields, such as `ExplodeBom` and the requirement and
    plan calculations, have no `modifies` clause and change nothing.
  - Every query is a function with a `reads` clause.
- **Loops in the source are loops in the model.** These include BOM row loading, the
  explosion queue, requirement accumulation, allocation, netting, plan collection and
  re-chaining.
- **Each method is proved equal to a specification function.** The specification
  functions are pure and defined by recursion over the same rows or months. Lemmas
  then prove the properties the source promises about them.

Modules:

| module | file | contents |
|---|---|---|
| `Common` | common.dfy | Periods and their key; `{**defaults, **given}` merge; sorted distinct periods; `xs[:n]` prefix; first-row stock lookup; flattening |
| `Netting` | netting.dfy | Ceiling; lot rounding; safety stock; net demand; batch, purchase and semi-finished quantities; Python `round`; coverage days |
| `Calendar` | calendar.dfy | Proleptic Gregorian day numbers for `datetime(year, month, 1)`; the range `datetime` accepts |
| `BomGraph` | bom_graph.dfy | The BOM graph (node list, edge list with one edge per parent/child pair); neighbour queries; paths and their quantity products |
| `Explosion` | explosion.dfy | The breadth-first explosion of `explode_bom` and its `groupby` step |
| `BomTables` | bom_tables.dfy | Row-by-row graph and table building; type inference; the hierarchy check; requirement accumulation |
| `Bom` | bom_manager.dfy | The `BomManager` class and the loops of its methods |
| `Allocation` | allocation.dfy | Period window and proportional or even allocation |
| `Purchasing` | purchasing.dfy | Supplier choice; the per-material purchase run; the semi-finished run; the flattened plans |
| `Mrp` | mrp_calculator.dfy | The `MrpCalculator` class and its loops |
| `Planner` | planner.dfy | The `ProductionPlanner` class, the schedule, the override and the re-chaining |

### Behaviour of the code that the model keeps

- **Diamond BOMs.**
  - `explode_bom` remembers visited (parent, child) edges, not visited nodes.
  - A sub-assembly reached along two paths is expanded twice, but each of its outgoing
    edges is queued only once.
  - So a component below a shared sub-assembly is counted along the first path only.
  - The model keeps this.
  - `ExplodeTotals` proves what does hold: every emitted row is the quantity product of one
    real root-to-component path.
  - Without a level limit, `ExplodeComplete` proves that every leaf reachable from the root
    that passes the type filter is a component.
  - `ExplodeOnePath` proves that a leaf reached along exactly one path has that path's
    quantity product as its total.
  - With a level limit L, `ExplodeCompleteLevels` proves the same kind of completeness.
    Take a material below the root whose shortest path from the root has at most L edges,
    that passes the type filter, and that either has no children or has a shortest path of
    exactly L edges. That material is a component of the result. The proof uses the
    queue's level order: each material is first popped at its shortest-path depth.
- **Only leaves are reported.**
  - `explode_bom` appends a material only when it has no children or sits at the level
    limit (`bom_manager.py:371-372`).
  - With `levels=None`, a semi-finished material that has children never appears.
  - The semi-finished requirements then never list it, so the semi-finished plan and the
    MRP report may be built from an empty table and return `None`.
  - The model keeps this.
- **Empty MRP tables.**
  - When the allocation table is empty, `optimize_purchase_plan` and
    `generate_semifinished_production_plan` index a missing column. They raise `KeyError`
    and return `None`.
  - An empty table happens when the requirement table is empty or the plan has no months.
  - `PurchasePlan` and `SemiPlan` return `None` in exactly this case.
- **Empty month window.**
  - `optimize_production_plan` keeps no month when the horizon is 0, or negative and at
    least the number of months in magnitude (`time_periods[:horizon]`,
    `production_planner.py:217`).
  - The resulting empty table has no columns, so `sort_values` (`production_planner.py:273`)
    raises. The handler returns `None` and the stored plan stays.
  - `OptimizedSchedule` returns `None` in this case. `ZeroHorizonHasNoPlan` states it for a
    horizon of 0.
- **Overriding one month.**
  - `adjust_production_plan` stores the exact, unrounded closing inventory of the row it
    changes.
  - Rows that `propagate_inventory_changes` re-chains later are not rounded either.
- **Redundant clamp.**
  - The planner's clamp of `horizon` to the forecast span (`production_planner.py:203-208`)
    never changes the plan.
  - `ClampIsRedundant` proves that the months a clamped horizon keeps are the ones the
    unclamped horizon keeps.
- **Integer-only parameters.** `set_mrp_parameters` merges whatever the caller gives. The
  model types every MRP parameter as an integer, the type of the defaults.

## Model

| member | source | states |
|---|---|---|
| Common.KeyIsLexicographic | production_planning_system/models/mrp_calculator.py:447-448 | Sorting periods by `year*12+month` orders them exactly as (year, month) pairs are ordered |
| Common.KeyInjective | models/production_planner.py:214-215 | Two periods with the same sort key are the same period |
| Common.Merge | production_planning_system/models/mrp_calculator.py:206-207 | `{**defaults, **given}`: keys are the union, a given value always wins, an untouched default survives |
| Common.SortedPeriods | models/production_planner.py:214-215 | The distinct periods of a table in strictly increasing order, each once, no others |
| Common.PrefixLength | production_planning_system/models/mrp_calculator.py:279-281 | The number of rows `head(n)` / `xs[:n]` keeps, including Python's negative-index case |
| Common.Earliest | models/production_planner.py:214-215 | The chosen period is in the set and no period of the set sorts before it |
| Common.FirstStock | production_planning_system/models/mrp_calculator.py:384-394 | Stock lookup reads the first row for the material, 0 when the material has no row |
| Common.Flatten | models/production_planner.py:255-264 | The flattened table has a (material, period) row exactly when that material's run has that period, with the run's row |
| Netting.Ceil | models/production_planner.py:247 | `np.ceil` returns the least integer not below x |
| Netting.RoundUpIsLeastMultiple | models/production_planner.py:247 | `ceil(x/lot)*lot` is a multiple of the lot at least x and below x+lot |
| Netting.RoundUpBounds | production_planning_system/models/mrp_calculator.py:510 | For a positive lot, rounding up to the lot stays within [x, x+lot) |
| Netting.RoundUpMultiple | production_planning_system/models/mrp_calculator.py:512 | Rounding up to a lot always gives a whole number of lots |
| Netting.NetDemand | models/production_planner.py:240 | `max(0, demand+safety-inventory)` is non-negative; it is positive exactly when inventory falls short of demand plus safety stock, and then it closes the gap |
| Netting.BatchProduction | models/production_planner.py:243-249 | No production without net demand; otherwise at least the net demand and one batch, a whole number of batches, and less than one batch beyond `max(net, batch)` |
| Netting.PurchaseQuantity | production_planning_system/models/mrp_calculator.py:504-514 | No purchase without net demand; without lot rounding it is `max(net, moq)`; otherwise it covers net and the minimum order, is a whole number of lots, and overshoots by less than one lot |
| Netting.SemiProduction | production_planning_system/models/mrp_calculator.py:621-630 | Semi-finished production is zero without net demand, otherwise the least multiple of the order multiple covering the net demand |
| Netting.Round | models/production_planner.py:260-262 | Python `round`: the nearest integer, ties going to the even one |
| Netting.RoundWhole | models/production_planner.py:260 | Rounding a whole quantity leaves it unchanged |
| Netting.RoundTenth | models/production_planner.py:263 | `round(x, 1)` is within 0.05 of x and has one decimal |
| Netting.CoverageOf | models/production_planner.py:263 | Coverage is infinite exactly when demand is not positive, otherwise days of demand on hand to one decimal |
| Netting.WorkedNettingExample | models/production_planner.py:237-252 | Demand 1000, 15 safety days, stock 200, batch 100: safety 500, net 1300, produce 1300, close at 500 |
| Netting.ZeroDemandExample | models/production_planner.py:240-263 | With zero demand and stock on hand nothing is produced and coverage is infinite |
| Calendar.DaysInMonth | production_planning_system/models/mrp_calculator.py:521 | Every month has 28 to 31 days |
| Calendar.DaysBeforeMonth | production_planning_system/models/mrp_calculator.py:521 | The days before a month's first day within its year are at most 335 |
| Calendar.NextMonthFirstDay | production_planning_system/models/mrp_calculator.py:521-522 | The next month starts one month length after this one |
| Calendar.NextYearFirstDay | production_planning_system/models/mrp_calculator.py:521-522 | January of the next year starts 31 days after December 1st, and the months fill the year |
| Calendar.LeapCount | production_planning_system/models/mrp_calculator.py:521-522 | Day numbers of consecutive New Year's days differ by the year's length (Gregorian leap rule) |
| Calendar.FirstDayIncreasing | production_planning_system/models/mrp_calculator.py:521-522 | Later periods have later first days |
| Calendar.FirstDayOfEpoch | production_planning_system/models/mrp_calculator.py:521 | `datetime(1, 1, 1)` is day 1 |
| Calendar.FirstDayExample | production_planning_system/models/mrp_calculator.py:521 | 2024-03-01 is day 738946 |
| Calendar.MaxDayIsLastDay | production_planning_system/models/mrp_calculator.py:522 | 9999-12-31 is the last day `datetime` can hold |
| BomGraph.EdgeQtyPresent | production_planning_system/models/bom_manager.py:148-150 | An edge quantity is found exactly when the graph has that parent/child edge |
| BomGraph.EdgeQtyOfMember | production_planning_system/models/bom_manager.py:148-150 | In a graph with one edge per pair, looking up a stored edge finds its own quantity |
| BomGraph.UpsertOverwrites | production_planning_system/models/bom_manager.py:150 | Adding an existing edge overwrites its quantity; every other pair keeps its quantity |
| BomGraph.UpsertShape | production_planning_system/models/bom_manager.py:150 | An existing edge is replaced in place, a new one is appended, nothing else changes |
| BomGraph.UpsertWellFormed | production_planning_system/models/bom_manager.py:150 | Adding an edge keeps one edge per parent/child pair |
| BomGraph.AddEdgeWellFormed | production_planning_system/models/bom_manager.py:148-150 | `add_edge` keeps the graph well formed: distinct nodes, both endpoints are nodes, one edge per pair |
| BomGraph.ChildrenInEdges | production_planning_system/models/bom_manager.py:276-281 | (child, qty) is listed for n exactly when the edge n->child with that qty exists |
| BomGraph.ParentsInEdges | production_planning_system/models/bom_manager.py:306-311 | (parent, qty) is listed for n exactly when the edge parent->n with that qty exists |
| BomGraph.NeighbourQueries | production_planning_system/models/bom_manager.py:259-317 | An edge p->c with qty q appears among p's children and among c's parents, and only then |
| BomGraph.NeighboursExactly | production_planning_system/models/bom_manager.py:259-317 | The successor and predecessor lists are exactly the out- and in-edges |
| BomGraph.ChildrenInEmpty | production_planning_system/models/bom_manager.py:182-190 | A node has no children exactly when it is the parent of no edge (out-degree 0) |
| BomGraph.ParentsInEmpty | production_planning_system/models/bom_manager.py:182-190 | A node has no parents exactly when it is the child of no edge (in-degree 0) |
| BomGraph.AbsentNodeIsIsolated | production_planning_system/models/bom_manager.py:271-272 | A material not in the graph has neither children nor parents |
| BomGraph.ChildQty | production_planning_system/models/bom_manager.py:398-401 | A listed child's quantity is the stored edge quantity |
| BomGraph.ExtendPath | production_planning_system/models/bom_manager.py:401 | Following an edge extends a rooted path and multiplies its quantity by the edge quantity |
| BomGraph.TwoCycleIsRejected | production_planning_system/models/bom_manager.py:92-104 | A->B together with B->A is not acyclic, so the DAG check must reject it |
| BomTables.SetTypeOk | production_planning_system/models/bom_manager.py:141-145 | Recording a type keeps the type table consistent with its insertion-order key list and never drops a key |
| BomTables.BuildTablesOk | production_planning_system/models/bom_manager.py:124-150 | Building from any rows keeps the graph well formed and the type table consistent |
| BomTables.BuildEdgeQty | production_planning_system/models/bom_manager.py:124-150 | After building, each edge's quantity is the last quantity the rows give for that pair, and pairs never mentioned have no edge |
| BomTables.BuildDescription | production_planning_system/models/bom_manager.py:130-138 | A material's description is the last one any row gives it, else the one it had before |
| BomTables.ApplyRowDescription | production_planning_system/models/bom_manager.py:130-138 | One row writes the parent's description, then the child's; other materials are untouched |
| BomTables.BuildType | production_planning_system/models/bom_manager.py:141-145 | A material's explicit type is the last one any row gives it, else the one it had before |
| BomTables.ApplyRowType | production_planning_system/models/bom_manager.py:141-145 | One row writes the parent's type, then the child's; other materials are untouched |
| BomTables.InferredTypeByEdges | production_planning_system/models/bom_manager.py:180-195 | Raw iff used but using nothing, Finished iff using but unused, SemiFinished iff both, Unknown iff neither |
| BomTables.InferFromSpec | production_planning_system/models/bom_manager.py:176-195 | Inference keeps every explicit type, gives every node a type, gives an untyped node the degree rule's type, and adds no other material |
| BomTables.RecordTypesStep | production_planning_system/models/bom_manager.py:198-201 | Writing one material's type into `material_info` changes only that material's entry and keeps its description |
| BomTables.NeighboursOfExactly | production_planning_system/models/bom_manager.py:259-317 | The getters return exactly the material's out- or in-edges, and nothing without a graph or for an absent material |
| BomTables.FirstViolationOk | production_planning_system/models/bom_manager.py:227-253 | The hierarchy check passes exactly when every typed material satisfies the rule for its type |
| BomTables.FirstViolationFirst | production_planning_system/models/bom_manager.py:227-251 | A failure names the first material, in insertion order, that breaks its rule, and reports that material's kind |
| BomTables.ViolationKinds | production_planning_system/models/bom_manager.py:229-251 | Only Finished and SemiFinished materials can fail, each with its own verdict |
| BomTables.AccumulateNext | production_planning_system/models/bom_manager.py:456-476 | One more plan row adds its exploded components times its quantity when it is a Finished product, and otherwise changes nothing |
| BomTables.AccumulateKeys | production_planning_system/models/bom_manager.py:456-476 | A component gets a requirement exactly when some Finished plan row explodes into it |
| BomTables.AccumulateSums | production_planning_system/models/bom_manager.py:476 | A component's requirement is the sum over Finished plan rows of its exploded total times the planned quantity |
| BomTables.RequirementsTyped | production_planning_system/models/bom_manager.py:425-504 | Requirements are None exactly without a graph; every requirement row is of the target type, with the material's description, and names a material of that type |
| BomTables.AccumulateOne | production_planning_system/models/bom_manager.py:456-476 | A one-row plan of a finished product adds its explosion times the planned quantity; other rows add nothing |
| BomTables.ExampleRequirements | production_planning_system/models/bom_manager.py:425-504 | A plan of 10 units of M001 needs exactly 50 of R001 and 30 of C001 |
| Explosion.ChildPairsOfEdges | production_planning_system/models/bom_manager.py:398-400 | Child pairs of genuine out-edges are graph edges |
| Explosion.ChildPairsInGraph | production_planning_system/models/bom_manager.py:398-400 | The (current, child) pairs that may enter `visited` are always edges of the graph |
| Explosion.Enqueue | production_planning_system/models/bom_manager.py:398-401 | Queueing the children adds exactly the unvisited (current, child) pairs to `visited` and appends their queue items in order |
| Explosion.EnqueueShrinks | production_planning_system/models/bom_manager.py:398-401 | Expanding a node either leaves `visited` and the queue length alone or strictly shrinks the unvisited edges |
| Explosion.StepShrinks | production_planning_system/models/bom_manager.py:361-401 | Each pass of the `while queue` loop shrinks the unvisited edges or the queue, so the loop ends |
| Explosion.GroupKeys | production_planning_system/models/bom_manager.py:408-413 | `groupby('组件编号')` has a row exactly for each component emitted |
| Explosion.GroupTotal | production_planning_system/models/bom_manager.py:411 | The grouped total is the sum of the emitted totals of that component |
| Explosion.SumTotalAbsent | production_planning_system/models/bom_manager.py:411 | A component never emitted sums to zero |
| Explosion.GroupLevel | production_planning_system/models/bom_manager.py:412 | The grouped level is the minimum of that component's emitted levels |
| Explosion.GroupFirst | production_planning_system/models/bom_manager.py:409-410 | The grouped description and type are those of the component's first emitted row |
| Explosion.BfsSound | production_planning_system/models/bom_manager.py:361-401 | Every row emitted by the queue loop is a non-root leaf (or level-limit node) of the right type, with its description and the quantity of a real path |
| Explosion.BfsKeepsOut | production_planning_system/models/bom_manager.py:389-395 | The loop only appends to the component list |
| Explosion.BfsEmitsFront | production_planning_system/models/bom_manager.py:372-395 | A queue head that passes the level, leaf and type tests is emitted |
| Explosion.ExplodeEntriesOk | production_planning_system/models/bom_manager.py:356-401 | The whole explosion emits only well-formed rows |
| Explosion.ExplodeNone | production_planning_system/models/bom_manager.py:347-353 | Explosion fails exactly when the graph is not built or the root is not in it |
| Explosion.GroupedComponentOk | production_planning_system/models/bom_manager.py:404-413 | Each grouped component is a non-root material of the filtered type, with its own type and description, a level from 1 up to the level limit, and a rooted path with that many edges |
| Explosion.ExplodeSound | production_planning_system/models/bom_manager.py:335-423 | For a root in the graph the result exists, excludes the root, and every component satisfies the grouped-row conditions |
| Explosion.ExplodeTotals | production_planning_system/models/bom_manager.py:382-413 | The result is the grouping of the emitted rows; each total is the sum of emitted totals; each emitted total is the quantity product along a rooted path of length level+1 |
| Explosion.EnqueueCovers | production_planning_system/models/bom_manager.py:397-401 | Queueing the children visits every (current, child) edge, and each newly visited edge's child gets a queue entry |
| Explosion.BfsCovers | production_planning_system/models/bom_manager.py:361-401 | Without a level limit the loop ends with a popped set that holds the root, is closed under edges, and whose leaves of the filtered type all have rows |
| Explosion.ExplodeComplete | production_planning_system/models/bom_manager.py:335-413 | Without a level limit, every non-root leaf reachable from the root that passes the type filter is a component |
| Explosion.LevelOrderedStep | production_planning_system/models/bom_manager.py:361-401 | Popping the front and appending children one level down keeps the queue in non-decreasing level order, at most one level apart, and no shallower than any earlier pop |
| Explosion.RepopVisitsNothing | production_planning_system/models/bom_manager.py:397-401 | A material popped again, whose first pop was not dropped, visits no new edge |
| Explosion.BfsLevels | production_planning_system/models/bom_manager.py:361-401 | At the end, the root was first popped at level 0; an undropped first pop has every child first popped at most one level deeper; an undropped first pop that emits has a row |
| Explosion.PathWithinLevels | production_planning_system/models/bom_manager.py:364-372 | Every node of a rooted path within the level limit is first popped no deeper than its position on the path |
| Explosion.ExplodeCompleteLevels | production_planning_system/models/bom_manager.py:335-413 | With a level limit L, a non-root material of the filtered type whose shortest rooted path has at most L edges, and exactly L edges unless it is a leaf, is a component |
| Explosion.EnqueueCount | production_planning_system/models/bom_manager.py:397-401 | Queueing adds one entry for a child exactly when its (current, child) edge is newly visited |
| Explosion.SingleRowTotal | production_planning_system/models/bom_manager.py:411 | A component with exactly one emitted row has that row's quantity as its sum |
| Explosion.BfsOnePath | production_planning_system/models/bom_manager.py:361-401 | A leaf reached along one path only is emitted at most once |
| Explosion.ExplodeOnePath | production_planning_system/models/bom_manager.py:335-413 | Without a level limit, a leaf of the filtered type reached along one path only is a component whose total is the path's quantity product and whose level is the path's number of edges |
| Explosion.ExampleExplosion | production_planning_system/models/bom_manager.py:335-423 | M001 built from R001 at 5 and C001 at 3 explodes, unfiltered or for raw materials, to exactly R001 at 5 and C001 at 3, both at level 1 |
| Bom.ChildrenOfWellFormed | production_planning_system/models/bom_manager.py:271-281 | For a well-formed graph the getter's result is the graph's successor list |
| Bom.DoneKeysStep | production_planning_system/models/bom_manager.py:198-201 | Each pass of the info-update loop handles one new typed material |
| Bom.DoneKeysAll | production_planning_system/models/bom_manager.py:198-201 | After the loop every typed material has been handled |
| Bom.EnqueueChildren | production_planning_system/models/bom_manager.py:398-401 | The child loop returns `Enqueue`'s visited set and queue |
| Bom.GroupRows | production_planning_system/models/bom_manager.py:404-413 | The grouping loop computes `Group` of the emitted rows |
| Bom.AddToTotals | production_planning_system/models/bom_manager.py:471-476 | The component loop adds `comp_qty * quantity` for every exploded component |
| Bom.RequirementRows | production_planning_system/models/bom_manager.py:479-500 | The table loop writes one requirement per accumulated component |
| Bom.ApplyRows | production_planning_system/models/bom_manager.py:124-150 | The row loop computes `BuildTables` of the BOM rows |
| Bom.BomManager.constructor | production_planning_system/models/bom_manager.py:26-32 | A new manager has no data, no graph and empty tables |
| Bom.BomManager.LoadBomData | production_planning_system/models/bom_manager.py:34-61 | Loading stores the rows and leaves graph and tables alone |
| Bom.BomManager.BuildBomGraph | production_planning_system/models/bom_manager.py:109-158 | Without data nothing changes; otherwise the graph is rebuilt from the rows, while descriptions and types accumulate onto the existing tables |
| Bom.BomManager.InferMaterialTypes | production_planning_system/models/bom_manager.py:160-211 | Without a graph nothing changes and `{}` is returned; otherwise untyped nodes get the degree rule's type and every type is written into the material info |
| Bom.BomManager.ValidateHierarchy | production_planning_system/models/bom_manager.py:213-257 | Fails with no types exactly when there are none; passes exactly when every typed material meets its rule; otherwise names the first offender |
| Bom.BomManager.ValidateBomData | production_planning_system/models/bom_manager.py:63-107 | The BOM rows are kept. Not loaded exactly without data, with nothing changed. Otherwise the graph is rebuilt and the descriptions and types accumulate. A cyclic graph stops there. An acyclic graph then gets inferred types written into the material info. Cyclic exactly when the rebuilt graph is not acyclic; passes exactly when it is acyclic and passes the hierarchy check |
| Bom.BomManager.GetMaterialChildren | production_planning_system/models/bom_manager.py:259-287 | Exactly the out-edges of a material in the graph, nothing otherwise |
| Bom.BomManager.GetMaterialParents | production_planning_system/models/bom_manager.py:289-317 | Exactly the in-edges of a material in the graph, nothing otherwise |
| Bom.BomManager.GetMaterialType | production_planning_system/models/bom_manager.py:319-333 | The recorded type, or Unknown for an untyped material |
| Bom.BomManager.ExplodeBom | production_planning_system/models/bom_manager.py:335-423 | The queue loop computes `ExplodeSpec`; its properties are `ExplodeNone`, `ExplodeSound`, `ExplodeTotals`, `ExplodeComplete`, `ExplodeCompleteLevels` and `ExplodeOnePath` |
| Bom.BomManager.CalculateRequirements | production_planning_system/models/bom_manager.py:451-504 | The plan loop computes `RequirementsSpec` for the target type |
| Bom.BomManager.CalculateRawMaterialRequirements | production_planning_system/models/bom_manager.py:425-504 | Raw-material requirements are `RequirementsSpec` with target Raw |
| Bom.BomManager.CalculateSemifinishedRequirements | production_planning_system/models/bom_manager.py:506-577 | Semi-finished requirements are `RequirementsSpec` with target SemiFinished |
| Allocation.PlanRows | production_planning_system/models/mrp_calculator.py:234-236 | The plan handed to the BOM manager has one (material, quantity) row per plan row, in order |
| Allocation.WindowSpec | production_planning_system/models/mrp_calculator.py:274-281 | The allocation window is strictly increasing, drawn from the plan's periods, and `head(horizon)` long |
| Allocation.WindowKeepsAll | production_planning_system/models/mrp_calculator.py:279-281 | When the plan has no more periods than the horizon, every period is kept |
| Allocation.WindowKeepsEarliest | production_planning_system/models/mrp_calculator.py:279-281 | Truncation drops only periods later than every kept one |
| Allocation.SumOverBump | production_planning_system/models/mrp_calculator.py:298 | Adding q to one window period's production adds q to the window sum |
| Allocation.ProductionConserved | production_planning_system/models/mrp_calculator.py:294-300 | The per-period production sums to `total_production` |
| Allocation.AllocationShape | production_planning_system/models/mrp_calculator.py:286-320 | One row per requirement and window period, copying type, description and total, with the period demand of the proportional/even rule |
| Allocation.PeriodDemandScales | production_planning_system/models/mrp_calculator.py:305-310 | With positive production, demand times total production is total demand times period production; otherwise demand times the period count is total demand |
| Allocation.ProportionalSum | production_planning_system/models/mrp_calculator.py:305-307 | Proportional shares over a window prefix add up to the total times that prefix's production fraction |
| Allocation.EvenSum | production_planning_system/models/mrp_calculator.py:308-310 | Even shares over a window prefix add up to its length times total/count |
| Allocation.ProportionalTotal | production_planning_system/models/mrp_calculator.py:305-307 | Proportional shares add up to the material's total demand |
| Allocation.EvenTotal | production_planning_system/models/mrp_calculator.py:308-310 | Even shares add up to the material's total demand |
| Allocation.WindowDistinct | production_planning_system/models/mrp_calculator.py:274-275 | The window has no duplicate period |
| Allocation.AllocationDemands | production_planning_system/models/mrp_calculator.py:302-320 | Each window period's demand for a material is given by the proportional/even rule |
| Allocation.AllocationConserves | production_planning_system/models/mrp_calculator.py:286-320 | For a non-empty window, a material's period demands sum to exactly its total requirement |
| Purchasing.InventoryOf | production_planning_system/models/mrp_calculator.py:372-398 | Raw and semi-finished stock come from their own tables' first rows; other types or missing tables give 0 |
| Purchasing.SuppliersOf | production_planning_system/models/mrp_calculator.py:410-415 | The filtered supplier rows are exactly the rows for the material |
| Purchasing.SuppliersOfFirst | production_planning_system/models/mrp_calculator.py:478 | `iloc[0]` of the filtered rows is the material's first supplier row |
| Purchasing.SupplierInfo | production_planning_system/models/mrp_calculator.py:400-419 | Without supplier data nothing; otherwise exactly the material's rows |
| Purchasing.ChosenSupplier | production_planning_system/models/mrp_calculator.py:470-482 | The default supplier (lead 15, min 100, price 1.0) when there is no row, otherwise the first row's terms |
| Purchasing.PurchaseRowOf | production_planning_system/models/mrp_calculator.py:497-545 | A month's row: net is the non-negative shortfall, no purchase without it, closing = opening + purchase - demand, delivery on the 1st, order lead-time days earlier, cost = purchase x price |
| Purchasing.RunPurchasesFails | production_planning_system/models/mrp_calculator.py:485-548 | A month that raises aborts the whole run |
| Purchasing.PurchaseNonNegative | production_planning_system/models/mrp_calculator.py:504-514 | A purchase quantity is never negative |
| Purchasing.PurchaseRowLots | production_planning_system/models/mrp_calculator.py:504-514 | A purchase covers the net demand and the minimum order when one is due, is a whole number of lots under rounding, and is `max(net, moq)` otherwise |
| Purchasing.PurchaseRowSafe | production_planning_system/models/mrp_calculator.py:498-518 | With a positive minimum order, or without lot rounding, a month closes at or above its safety stock |
| Purchasing.RunRows | production_planning_system/models/mrp_calculator.py:485-548 | Only months with a positive purchase are listed; each carries its demand, terms, cost, balance and dates, and the order date is a valid date |
| Purchasing.RunSafe | production_planning_system/models/mrp_calculator.py:498-518 | With a positive minimum order, or without lot rounding, every listed month closes at or above its safety stock |
| Purchasing.RunConserves | production_planning_system/models/mrp_calculator.py:516-518 | Closing stock = opening stock + all purchases - all allocated demand over the window |
| Purchasing.PurchasePlanRows | production_planning_system/models/mrp_calculator.py:454-555 | Each plan row belongs to a required raw material and a window month, has a positive purchase, the material's description, its allocated demand, its supplier's terms and cost, and consistent dates |
| Purchasing.TermsPriceNonNegative | production_planning_system/models/mrp_calculator.py:470-482 | With non-negative supplier prices the chosen price is non-negative, the default included |
| Purchasing.CostNonNegative | production_planning_system/models/mrp_calculator.py:527 | A non-negative purchase at a non-negative price costs a non-negative amount |
| Purchasing.PurchasePlanCosts | production_planning_system/models/mrp_calculator.py:525-527 | With non-negative prices every plan row's cost is non-negative |
| Purchasing.SemiRowOf | production_planning_system/models/mrp_calculator.py:621-645 | A semi-finished month: demand and opening copied, closing = opening + production - demand, no production without net demand, and with a positive multiple a closing stock >= 0 and production below net + multiple, a whole number of multiples |
| Purchasing.RunSemiFails | production_planning_system/models/mrp_calculator.py:615-645 | A month that raises aborts the whole run |
| Purchasing.RunSemiDefined | production_planning_system/models/mrp_calculator.py:621-630 | With a positive order multiple the run never raises |
| Purchasing.RunSemiRows | production_planning_system/models/mrp_calculator.py:615-645 | Every window month is listed with its allocated demand and balance; with a positive multiple no month closes negative |
| Purchasing.RunSemiConserves | production_planning_system/models/mrp_calculator.py:632-645 | Closing stock = opening stock + all production - all allocated demand over the window |
| Purchasing.SemiPlanRows | production_planning_system/models/mrp_calculator.py:602-655 | The plan has a row exactly for each required semi-finished material and window month, with its allocated demand and description |
| Mrp.MergedParameters | production_planning_system/models/mrp_calculator.py:181-214 | After merging, horizon, safety days, order multiple and max inventory days are the given values or the defaults 6, 15, 1 and 60 |
| Mrp.CostSumRemove | production_planning_system/models/mrp_calculator.py:696-699 | The total cost splits off any one row's cost |
| Mrp.CostSumNonNegative | production_planning_system/models/mrp_calculator.py:696-699 | A sum of non-negative costs is non-negative |
| Mrp.PlanCostNonNegative | production_planning_system/models/mrp_calculator.py:696-699 | With non-negative supplier prices the report's total purchase cost is non-negative |
| Mrp.TotalCostNonNegative | production_planning_system/models/mrp_calculator.py:696-699 | A plan whose rows all cost >= 0 has total cost >= 0 |
| Mrp.ProductionByPeriod | production_planning_system/models/mrp_calculator.py:291-300 | The production loop computes each window period's production and the window total |
| Mrp.AllocateMaterial | production_planning_system/models/mrp_calculator.py:302-320 | One material's loop adds exactly its window rows with the allocation rule and leaves other rows alone |
| Mrp.AllocateTable | production_planning_system/models/mrp_calculator.py:286-320 | The table has a row exactly for each requirement and window period, with the allocation rule's cell |
| Mrp.RunPurchasesStep | production_planning_system/models/mrp_calculator.py:485-548 | One more month either raises or appends that month's row (when it purchases) and carries its closing stock |
| Mrp.PeriodPurchase | production_planning_system/models/mrp_calculator.py:497-545 | The month body computes `PurchaseRowOf` |
| Mrp.PlanMaterialPurchases | production_planning_system/models/mrp_calculator.py:485-548 | The month loop computes `RunPurchases` |
| Mrp.RunSemiStep | production_planning_system/models/mrp_calculator.py:615-645 | One more month either raises or appends that month's row and carries its closing stock |
| Mrp.PlanMaterialSemi | production_planning_system/models/mrp_calculator.py:615-645 | The semi-finished month loop computes `RunSemi` |
| Mrp.AllocationIs | production_planning_system/models/mrp_calculator.py:286-320 | A table with the allocation rule's rows is the allocation |
| Mrp.CollectPurchases | production_planning_system/models/mrp_calculator.py:455-548 | The material loop succeeds exactly when no material's run raises, and then yields every material's rows |
| Mrp.MaterialRun | production_planning_system/models/mrp_calculator.py:456-548 | One material: its description, opening stock and supplier terms, then its month loop |
| Mrp.CollectSemi | production_planning_system/models/mrp_calculator.py:602-645 | The semi-finished material loop succeeds exactly when no run raises, and then yields every material's rows |
| Mrp.PurchasesFrom | production_planning_system/models/mrp_calculator.py:444-564 | The purchase table is `PurchasePlan` of the allocation |
| Mrp.SemiFrom | production_planning_system/models/mrp_calculator.py:590-658 | The semi-finished table is `SemiPlan` of the allocation |
| Mrp.SumCosts | production_planning_system/models/mrp_calculator.py:696-699 | The cost loop computes the total cost of the plan |
| Mrp.MrpCalculator.constructor | production_planning_system/models/mrp_calculator.py:22-37 | A new calculator holds the given BOM manager and nothing else |
| Mrp.MrpCalculator.SetBomManager | production_planning_system/models/mrp_calculator.py:39-55 | A null manager is refused and changes nothing; any other is stored |
| Mrp.MrpCalculator.LoadProductionPlan | production_planning_system/models/mrp_calculator.py:57-86 | The plan rows are stored |
| Mrp.MrpCalculator.LoadRawMaterialInventory | production_planning_system/models/mrp_calculator.py:88-117 | The raw-material inventory rows are stored |
| Mrp.MrpCalculator.LoadSemifinishedInventory | production_planning_system/models/mrp_calculator.py:119-148 | The semi-finished inventory rows are stored |
| Mrp.MrpCalculator.LoadSupplierData | production_planning_system/models/mrp_calculator.py:150-179 | The supplier rows are stored |
| Mrp.MrpCalculator.SetMrpParameters | production_planning_system/models/mrp_calculator.py:181-214 | A non-dict is refused and changes nothing; otherwise the parameters become defaults merged with the given values |
| Mrp.MrpCalculator.CalculateRequirements | production_planning_system/models/mrp_calculator.py:216-255 | Without a manager, graph or plan both results are None and nothing is stored; otherwise both requirement tables are computed and stored |
| Mrp.MrpCalculator.AllocateRequirementsToPeriods | production_planning_system/models/mrp_calculator.py:257-370 | None without requirements or plan; otherwise both allocation tables over the window |
| Mrp.MrpCalculator.GetMaterialInventory | production_planning_system/models/mrp_calculator.py:372-398 | First stock row of the material in the table for its type, 0 otherwise |
| Mrp.MrpCalculator.GetSupplierInfo | production_planning_system/models/mrp_calculator.py:400-419 | Exactly the material's supplier rows, nothing without supplier data |
| Mrp.MrpCalculator.ComputePurchasePlan | production_planning_system/models/mrp_calculator.py:421-570 | The purchase computation yields `OptimizedPlan` of the current state |
| Mrp.MrpCalculator.OptimizePurchasePlan | production_planning_system/models/mrp_calculator.py:421-570 | Returns the purchase plan; it is stored only when it has rows |
| Mrp.MrpCalculator.GenerateSemifinishedProductionPlan | production_planning_system/models/mrp_calculator.py:572-664 | The semi-finished plan of the current state |
| Mrp.MrpCalculator.GenerateMrpReport | production_planning_system/models/mrp_calculator.py:666-720 | None when requirements fail or either plan fails; otherwise the stored requirements, both plans and a summary of the counts, total cost and horizon. Whatever the result: failed requirements leave the requirement tables and the purchase plan as they were; computed requirements are stored, and a non-empty purchase plan is stored even when the semi-finished plan then fails |
| Planner.MergedConstraints | models/production_planner.py:140-150 | After merging, batch size and safety days are the given values or the defaults 100 and 15 |
| Planner.FirstForecast | models/production_planner.py:304-319 | The forecast value of the first matching row, 0 when none matches |
| Planner.MinKey | models/production_planner.py:203-204 | The least period key of the forecast, attained by some row |
| Planner.MaxKey | models/production_planner.py:203-204 | The greatest period key of the forecast, attained by some row |
| Planner.MonthCount | models/production_planner.py:203-204 | A set of months inside a key range has at most as many members as the range |
| Planner.MonthsWithinSpan | models/production_planner.py:203-208 | The forecast never has more distinct months than its span |
| Planner.ClampIsRedundant | models/production_planner.py:206-217 | Clamping the horizon to the span keeps the same months as not clamping |
| Planner.PlanMonthsSpec | models/production_planner.py:213-217 | The planned months are strictly increasing forecast months, `horizon` of them or all |
| Planner.StepProduction | models/production_planner.py:236-252 | The month's net is the non-negative shortfall; no production without it; otherwise at least the net and one batch, a whole number of batches; closing = opening + production - demand |
| Planner.StepSafe | models/production_planner.py:236-252 | With a positive batch a month closes at or above its safety stock |
| Planner.RunMaterialNext | models/production_planner.py:232-267 | One more month continues the run from the previous closing stock |
| Planner.RunMaterialFails | models/production_planner.py:232-267 | A month that raises aborts the run |
| Planner.RunMaterialKeys | models/production_planner.py:232-264 | The run has a row exactly for each month processed |
| Planner.AdvanceKeys | models/production_planner.py:255-264 | A month adds its own row and keeps the others |
| Planner.RunMaterialKeep | models/production_planner.py:255-267 | Later months never change an earlier month's row |
| Planner.RunMaterialMonth | models/production_planner.py:229-267 | Month i opens with the previous month's closing stock (the initial stock for the first) and its row is that month's step |
| Planner.RunMaterialChain | models/production_planner.py:261-267 | In an unrounded run each month opens with the previous month's close |
| Planner.RunMaterialDefined | models/production_planner.py:243-249 | With a positive batch size the run never raises |
| Planner.ScheduleExists | models/production_planner.py:197-290 | With a positive batch size a plan is produced exactly when the forecast is loaded and non-empty and the horizon keeps at least one month |
| Planner.ZeroHorizonHasNoPlan | models/production_planner.py:217-290 | A horizon of 0 keeps no month, so no plan is produced |
| Planner.ScheduleIsRuns | models/production_planner.py:227-276 | The plan holds, for each forecast material, exactly the rows of its run over the planned months |
| Planner.ScheduleShape | models/production_planner.py:227-264 | One row per forecast material and planned month, with that month's forecast demand |
| Planner.StrictlyIncreasingIsDistinct | models/production_planner.py:214-217 | The sorted planned months have no duplicates |
| Planner.ScheduleMonth | models/production_planner.py:229-267 | A plan row is the step of its month from the carried inventory, starting from the material's stock |
| Planner.ScheduleSafe | models/production_planner.py:252-262 | With a positive batch the carried stock never falls below safety stock, and the rounded closing stock misses it by at most 0.5 |
| Planner.ScheduleChain | models/production_planner.py:261-267 | Each month's rounded opening stock equals the previous month's rounded closing stock |
| Planner.ScheduleRowEnds | models/production_planner.py:261-262 | A row's opening and closing stock are the rounded carried inventories before and after its month |
| Planner.Adjusted | models/production_planner.py:356-371 | The overridden row has the new production, the same demand and opening, closing = opening + new production - demand, and the coverage of that closing |
| Planner.IndexOf | models/production_planner.py:402-406 | The first position of the month in the month list, -1 exactly when absent |
| Planner.AdjustedSchedule | models/production_planner.py:325-383 | An override succeeds exactly when a plan exists and has the (material, month) row |
| Planner.RechainKeys | models/production_planner.py:413-450 | Re-chaining never adds or removes rows |
| Planner.RechainOutside | models/production_planner.py:413-430 | Rows of other materials or of untouched months are unchanged |
| Planner.RechainQuantities | models/production_planner.py:433-450 | Re-chaining changes only inventories and coverage, never production or demand |
| Planner.RechainRow | models/production_planner.py:413-450 | A re-chained month opens with the (already re-chained) previous month's close, or is skipped when that month has no row |
| Planner.ScheduleMonthsSpec | models/production_planner.py:396-399 | The plan's months are sorted, distinct, and exactly the months of its rows |
| Planner.ScheduleMonthsOfKeys | models/production_planner.py:396-399 | Plans with the same rows list the same months |
| Planner.PropagatedKeys | models/production_planner.py:385-450 | Propagation keeps the plan's row set |
| Planner.PropagatedQuantities | models/production_planner.py:433-450 | Propagation never changes production or demand |
| Planner.PropagatedFrame | models/production_planner.py:413-430 | Other materials and months up to the changed one are untouched |
| Planner.PropagatedUnknownMonth | models/production_planner.py:402-410 | A month not in the plan leaves the plan unchanged |
| Planner.PropagatedLastMonth | models/production_planner.py:402-410 | Changing the last month leaves the plan unchanged |
| Planner.PropagatedChain | models/production_planner.py:413-450 | After the changed month, each month with a row opens with the propagated close of the previous month |
| Planner.AdjustedRows | models/production_planner.py:344-374 | The override keeps the row set, sets the chosen row as `Adjusted`, and leaves earlier months and other materials alone |
| Planner.AdjustedFlowsOn | models/production_planner.py:360-374 | After an override the next month opens with the overridden month's new close |
| Planner.PropagatedFlowsOn | models/production_planner.py:433-450 | A propagated month's successor opens with that month's close |
| Planner.AdjustedIsPropagated | models/production_planner.py:356-374 | An override is the row update followed by propagation from that month |
| Planner.ForecastSpan | models/production_planner.py:203-204 | The span loop computes max key - min key + 1 |
| Planner.ProduceMonth | models/production_planner.py:234-264 | The month body computes the step and its plan row |
| Planner.PlanMaterial | models/production_planner.py:229-267 | The month loop computes the material's run |
| Planner.MaterialSchedule | models/production_planner.py:227-267 | A material's loop starts from its inventory level under the merged constraints |
| Planner.CollectSchedule | models/production_planner.py:227-267 | The material loop succeeds exactly when no run raises, and then yields every material's rows |
| Planner.FindMonth | models/production_planner.py:402-406 | The search loop finds `IndexOf` |
| Planner.RechainFrom | models/production_planner.py:413-450 | The propagation loop computes `Rechain` over the remaining months |
| Planner.ProductionPlanner.constructor | models/production_planner.py:21-28 | A new planner has no data, no plan and no constraints |
| Planner.ProductionPlanner.LoadForecastData | models/production_planner.py:30-59 | The forecast rows are stored |
| Planner.ProductionPlanner.LoadInventoryData | models/production_planner.py:61-90 | The inventory rows are stored |
| Planner.ProductionPlanner.SetProductionConstraints | models/production_planner.py:123-157 | A non-dict is refused and changes nothing; otherwise the constraints become defaults merged with the given values |
| Planner.ProductionPlanner.GetInventoryLevel | models/production_planner.py:159-184 | The first inventory row's quantity, 0 without data or row |
| Planner.ProductionPlanner.GetForecastDemand | models/production_planner.py:292-323 | The first matching forecast value, 0 without data or row |
| Planner.ProductionPlanner.OptimizeProductionPlan | models/production_planner.py:186-290 | Returns the optimized schedule (None without forecast rows or months) and stores it only when one is produced |
| Planner.ProductionPlanner.PropagateInventoryChanges | models/production_planner.py:385-453 | Without a plan nothing; otherwise the plan becomes its propagation from the month |
| Planner.ProductionPlanner.AdjustProductionPlan | models/production_planner.py:325-383 | Succeeds exactly when the plan has the row; then the plan becomes the adjusted schedule, else it is unchanged |

## Left out

- The `load_*` methods of all three classes: only storing the rows is modelled. Reading files, DataFrame construction and required-column checks are not, because they are I/O and pandas validation.
- `export_bom_data`, `export_mrp_report` and `export_production_plan` write spreadsheets, which is I/O.
- `load_supplier_data` and `get_supplier_info` of the BOM manager are not part of the planning core. The MRP calculator's own supplier lookup is modelled.
- `load_capacity_data`, `optimization_result` and the unused `objective` argument of `optimize_production_plan` have no effect on any plan.
- Logging and exception message strings are left out. `validate_bom_data` and `validate_hierarchy` return a `Validation` / `Hierarchy` datatype naming the outcome and the offending material instead of a message.
- Bom.BomManager.ValidateBomData: the networkx `is_directed_acyclic_graph` test is a parameter `isDag`, because it is library code. `TwoCycleIsRejected` states what the test must reject. The numeric check on quantity columns (`bom_manager.py:83-84`) is not modelled, because quantities are typed as numbers.
- Floating point is modelled as exact rationals. Python's `round` on binary floats can differ from `Round` at values that are not exactly representable. NaN and infinity paths are modelled as `None`, through `StepDefined`, `PurchaseDefined` and `SemiDefined`. An example is a zero batch or a zero order lot with positive net demand.
- Purchasing.PurchaseRowOf: the display rounding `round(x, 2)` of opening, net, purchase, closing and cost in the purchase and semi-finished tables is not applied. Rows carry the exact values, which is what the next month's balance uses. The planner's `round` and `round(x, 1)` are modelled.
- Dates are day numbers (`Calendar.FirstDay`), not `datetime` objects or `strftime` strings. An order date before 0001-01-01 makes the run fail, as `timedelta` subtraction does.
- Mrp.MrpCalculator.GenerateMrpReport: the total cost is the sum of the exact row costs. The source sums the costs after `round(cost, 2)` (`mrp_calculator.py:545` and `696-697`), so the two can differ by rounding.
- Months are the type `Month` (1 to 12), and supplier lead times are integers. A month outside 1 to 12 or a fractional lead time in the input tables is not modelled.
- Mrp.MergedParameters: parameters are typed as integers. A float or string value the caller passes to `set_mrp_parameters` is not modelled.
- The order of DataFrame rows, `sort_values` and `unique()` order is left out, because tables are modelled as maps keyed by material or (material, period). Row sets and row contents are modelled.
- `production_by_period` is recomputed in the source for every requirement row. The model computes it once, which gives the same value.
- Concurrency and the Streamlit pages are not part of this model.
