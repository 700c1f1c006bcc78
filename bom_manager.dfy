/**
 * The BOMManager class (production_planning_system/models/bom_manager.py):
 * the loaded BOM rows, the graph, `material_info` and the ordered
 * `material_types` dict as fields, and the methods that update or query
 * them. Each method is proved against the specification functions of
 * BomTables and Explosion.
 */
module Bom {
  import opened Common
  import opened BomGraph
  import opened Explosion
  import opened BomTables

  /** The outcome of validate_bom_data (the message strings are not modelled). */
  datatype Validation = Passed | NotLoaded | Cyclic | BadHierarchy(h: Hierarchy)

  /** With a well-formed graph get_material_children is the graph's own child list. */
  lemma ChildrenOfWellFormed(g: Graph, n: Id)
    requires WellFormed(g)
    ensures ChildrenOf(Some(g), n) == Children(g, n)
  {
    if n !in g.nodes {
      AbsentNodeIsIsolated(g, n);
    }
  }

  /** The keys visited so far by a loop over the first j keys of the dict. */
  function DoneKeys(ks: seq<Id>, j: int): set<Id>
    requires 0 <= j <= |ks|
  {
    set k | 0 <= k < j :: ks[k]
  }

  /** One more key visited; with distinct keys it was not visited before. */
  lemma DoneKeysStep(ks: seq<Id>, types: map<Id, MaterialType>, j: int)
    requires TypeTableOk(ks, types) && 0 <= j < |ks|
    ensures ks[j] !in DoneKeys(ks, j) && ks[j] in types
    ensures DoneKeys(ks, j + 1) == DoneKeys(ks, j) + {ks[j]}
    ensures DoneKeys(ks, j + 1) <= types.Keys
  {
    assert ks[j] in ks;
    forall k | k in DoneKeys(ks, j + 1) ensures k in types {
      var i :| 0 <= i < j + 1 && ks[i] == k;
      assert ks[i] in ks;
    }
  }

  /** Having visited every key, the visited set is the type table's domain. */
  lemma DoneKeysAll(ks: seq<Id>, types: map<Id, MaterialType>)
    requires TypeTableOk(ks, types)
    ensures DoneKeys(ks, |ks|) == types.Keys
  {
    forall n | n in types ensures n in DoneKeys(ks, |ks|) {
      assert n in ks;
      var i :| 0 <= i < |ks| && ks[i] == n;
    }
    forall n | n in DoneKeys(ks, |ks|) ensures n in types {
      var i :| 0 <= i < |ks| && ks[i] == n;
      assert ks[i] in ks;
    }
  }

  /**
   * The inner loop of explode_bom: each child whose edge from `cur` is not
   * yet visited is marked visited and enqueued one level deeper, carrying
   * the multiplier `mult`.
   */
  method EnqueueChildren(cur: Id, level: int, mult: real, children: seq<(Id, real)>,
                         visited: set<(Id, Id)>, queue: seq<QItem>) returns (v: set<(Id, Id)>, qu: seq<QItem>)
    ensures (v, qu) == Enqueue(cur, level, mult, children, visited, queue)
  {
    v, qu := visited, queue;
    var j := 0;
    while j < |children|
      invariant 0 <= j <= |children|
      invariant Enqueue(cur, level, mult, children[j..], v, qu) == Enqueue(cur, level, mult, children, visited, queue)
    {
      var child := children[j].0;
      assert children[j..][1..] == children[j + 1..];
      if (cur, child) !in v {
        v := v + {(cur, child)};
        qu := qu + [QItem(child, children[j].1, level + 1, mult)];
      }
      j := j + 1;
    }
  }

  /** The groupby of explode_bom: one component per id, quantities summed, the least level kept. */
  method GroupRows(out: seq<Entry>) returns (m: map<Id, Component>)
    ensures m == Group(out)
  {
    m := map[];
    var k := 0;
    while k < |out|
      invariant 0 <= k <= |out|
      invariant m == Group(out[..k])
    {
      var e := out[k];
      assert out[..k + 1][..k] == out[..k];
      if e.id in m {
        m := m[e.id := Component(m[e.id].description, m[e.id].mtype, m[e.id].total + e.total, MinInt(m[e.id].level, e.level))];
      } else {
        m := m[e.id := Component(e.description, e.mtype, e.total, e.level)];
      }
      k := k + 1;
    }
    assert out[..k] == out;
  }

  /** Adds every exploded component's total times the planned quantity to the running totals. */
  method AddToTotals(acc: map<Id, real>, comps: map<Id, Component>, qty: real) returns (r: map<Id, real>)
    ensures r == AddComponents(acc, comps, qty)
  {
    r := acc;
    var todo := comps.Keys;
    while todo != {}
      invariant todo <= comps.Keys
      invariant r == AddSome(acc, comps, comps.Keys - todo, qty)
      decreases |todo|
    {
      var c :| c in todo;
      r := r[c := GetOr(r, c, 0.0) + Share(comps[c], qty)];
      todo := todo - {c};
    }
    assert comps.Keys - todo == comps.Keys;
  }

  /** The result DataFrame: one row per accumulated material, with its description. */
  method RequirementRows(info: map<Id, Info>, acc: map<Id, real>, target: MaterialType) returns (table: map<Id, Requirement>)
    ensures table == RequirementTable(info, acc, target)
  {
    table := map[];
    var todo := acc.Keys;
    while todo != {}
      invariant todo <= acc.Keys
      invariant table == map c | c in acc.Keys - todo :: Requirement(DescriptionOf(info, c), target, acc[c])
      decreases |todo|
    {
      var c :| c in todo;
      table := table[c := Requirement(DescriptionOf(info, c), target, acc[c])];
      todo := todo - {c};
    }
    assert acc.Keys - todo == acc.Keys;
  }

  /** The row loop of build_bom_graph, applied to the tables it starts from. */
  method ApplyRows(rows: seq<BomRow>, start: Tables) returns (t: Tables)
    ensures t == BuildTables(rows, start)
  {
    var g, inf, ks, ts := start.graph, start.info, start.keys, start.types;
    var i := 0;
    while i < |rows|
      invariant 0 <= i <= |rows|
      invariant Tables(g, inf, ks, ts) == BuildTables(rows[..i], start)
    {
      var row := rows[i];
      ghost var before := Tables(g, inf, ks, ts);
      inf := SetDescription(inf, row.parent, row.parentDesc);
      inf := SetDescription(inf, row.child, row.childDesc);
      var kt := SetType(ks, ts, row.parent, row.parentType);
      kt := SetType(kt.0, kt.1, row.child, row.childType);
      ks, ts := kt.0, kt.1;
      g := AddNode(g, row.parent);
      g := AddNode(g, row.child);
      g := g.(edges := UpsertEdge(g.edges, row.parent, row.child, row.qty));
      assert Tables(g, inf, ks, ts) == ApplyRow(before, row);
      assert rows[..i + 1][..i] == rows[..i];
      i := i + 1;
    }
    assert rows[..i] == rows;
    t := Tables(g, inf, ks, ts);
  }

  class BomManager {
    var bomData: Option<seq<BomRow>>
    var graph: Option<Graph>
    var info: map<Id, Info>
    var typeKeys: seq<Id>
    var types: map<Id, MaterialType>

    ghost predicate Valid()
      reads this
    {
      (graph.Some? ==> WellFormed(graph.value)) && TypeTableOk(typeKeys, types)
    }

    constructor()
      ensures Valid()
      ensures bomData.None? && graph.None? && info == map[] && typeKeys == [] && types == map[]
    {
      bomData := None;
      graph := None;
      info := map[];
      typeKeys := [];
      types := map[];
    }

    /** The successful end of load_bom_data: the parsed rows become the BOM data. */
    method LoadBomData(rows: seq<BomRow>)
      requires Valid()
      modifies this
      ensures Valid()
      ensures bomData == Some(rows)
      ensures graph == old(graph) && info == old(info) && typeKeys == old(typeKeys) && types == old(types)
    {
      bomData := Some(rows);
    }

    /**
     * build_bom_graph: without data nothing changes and None is returned;
     * otherwise a fresh graph is built row by row while descriptions and
     * explicit types are written into the existing `material_info` and
     * `material_types`, which are not reset.
     */
    method BuildBomGraph() returns (r: Option<Graph>)
      requires Valid()
      modifies this
      ensures Valid()
      ensures bomData == old(bomData)
      ensures old(bomData).None? ==>
        r.None? && graph == old(graph) && info == old(info) && typeKeys == old(typeKeys) && types == old(types)
      ensures old(bomData).Some? ==>
        var t := BuildTables(old(bomData).value, Tables(EmptyGraph, old(info), old(typeKeys), old(types)));
        && r == Some(t.graph) && graph == r
        && info == t.info && typeKeys == t.keys && types == t.types
    {
      if bomData.None? {
        return None;
      }
      var rows := bomData.value;
      var start := Tables(EmptyGraph, info, typeKeys, types);
      var t := ApplyRows(rows, start);
      BuildTablesOk(rows, start);
      graph, info, typeKeys, types := Some(t.graph), t.info, t.keys, t.types;
      r := graph;
    }

    /**
     * infer_material_types: without a graph nothing changes and {} is
     * returned. Otherwise every node without a type gets the degree rule's
     * type, in node order, and then every typed material's type is recorded
     * in `material_info`. The returned map is the whole type table.
     */
    method InferMaterialTypes() returns (r: map<Id, MaterialType>)
      requires Valid()
      modifies this
      ensures Valid()
      ensures bomData == old(bomData) && graph == old(graph)
      ensures old(graph).None? ==>
        r == map[] && info == old(info) && typeKeys == old(typeKeys) && types == old(types)
      ensures old(graph).Some? ==>
        var s := InferFrom(old(graph).value, old(graph).value.nodes, old(typeKeys), old(types));
        && typeKeys == s.0 && types == s.1 && r == types
        && info == RecordTypes(old(info), types, types.Keys)
    {
      if graph.None? {
        return map[];
      }
      var g := graph.value;
      var ns := g.nodes;
      var ks0, ts0, info0 := typeKeys, types, info;
      var ks, ts := ks0, ts0;
      var i := 0;
      while i < |ns|
        invariant 0 <= i <= |ns|
        invariant InferFrom(g, ns[i..], ks, ts) == InferFrom(g, ns, ks0, ts0)
        invariant unchanged(this)
      {
        var n := ns[i];
        assert ns[i..][1..] == ns[i + 1..];
        if n !in ts {
          ks := ks + [n];
          ts := ts[n := InferredType(g, n)];
        }
        i := i + 1;
      }
      assert TypeTableOk(ks, ts) by {
        InferFromSpec(g, ns, ks0, ts0);
      }
      var inf := info0;
      var j := 0;
      while j < |ks|
        invariant 0 <= j <= |ks|
        invariant DoneKeys(ks, j) <= ts.Keys
        invariant inf == RecordTypes(info0, ts, DoneKeys(ks, j))
        invariant unchanged(this)
      {
        var m := ks[j];
        DoneKeysStep(ks, ts, j);
        RecordTypesStep(info0, ts, DoneKeys(ks, j), m);
        inf := inf[m := Info(GetOr(inf, m, NoInfo).description, Some(ts[m]))];
        j := j + 1;
      }
      DoneKeysAll(ks, ts);
      typeKeys, types, info := ks, ts, inf;
      r := types;
    }

    /**
     * validate_hierarchy on the current tables: NoTypes exactly when there
     * is no type at all, HierarchyOk exactly when every typed material passes
     * the rule for its type, and otherwise the first failing material in dict
     * order.
     */
    function ValidateHierarchy(): (h: Hierarchy)
      reads this
      requires Valid()
      ensures h == NoTypes <==> |types| == 0
      ensures h == HierarchyOk <==>
        |types| > 0 && forall k :: 0 <= k < |typeKeys| ==> MaterialOk(graph, types, typeKeys[k], types[typeKeys[k]])
      ensures h.BadFinished? || h.BadSemiFinished? ==>
        exists i :: FirstBad(graph, types, typeKeys, i) && h.node == typeKeys[i]
    {
      FirstViolationOk(graph, types, typeKeys);
      FirstViolationFirst(graph, types, typeKeys);
      ViolationKinds(graph, types, typeKeys);
      CheckHierarchy(graph, typeKeys, types)
    }

    /**
     * The structure part of validate_bom_data. `isDag` is the answer of
     * nx.is_directed_acyclic_graph on the freshly built graph, that is
     * whether that graph is acyclic. Without data: NotLoaded and no change.
     * With a cycle: Cyclic, after the build. Otherwise the types are
     * inferred and the hierarchy decides.
     */
    method ValidateBomData(isDag: bool) returns (v: Validation)
      requires Valid()
      requires bomData.Some? ==>
        isDag == Acyclic(BuildTables(bomData.value, Tables(EmptyGraph, info, typeKeys, types)).graph)
      modifies this
      ensures Valid()
      ensures old(bomData).None? <==> v == NotLoaded
      ensures v == NotLoaded ==>
        graph == old(graph) && info == old(info) && typeKeys == old(typeKeys) && types == old(types)
      ensures bomData == old(bomData)
      ensures old(bomData).Some? ==>
        graph == Some(BuildTables(old(bomData).value, Tables(EmptyGraph, old(info), old(typeKeys), old(types))).graph)
      ensures v == Cyclic ==>
        var t := BuildTables(old(bomData).value, Tables(EmptyGraph, old(info), old(typeKeys), old(types)));
        info == t.info && typeKeys == t.keys && types == t.types
      ensures old(bomData).Some? && v != Cyclic ==>
        var t := BuildTables(old(bomData).value, Tables(EmptyGraph, old(info), old(typeKeys), old(types)));
        && (typeKeys, types) == InferFrom(t.graph, t.graph.nodes, t.keys, t.types)
        && info == RecordTypes(t.info, types, types.Keys)
      ensures v == Cyclic <==> old(bomData).Some? && !Acyclic(graph.value)
      ensures v == Passed <==>
        old(bomData).Some? && Acyclic(graph.value) && CheckHierarchy(graph, typeKeys, types) == HierarchyOk
      ensures v.BadHierarchy? ==> v.h == CheckHierarchy(graph, typeKeys, types) && v.h != HierarchyOk
    {
      if bomData.None? {
        return NotLoaded;
      }
      var _ := BuildBomGraph();
      if isDag {
        var _ := InferMaterialTypes();
        var h := ValidateHierarchy();
        if h == HierarchyOk {
          v := Passed;
        } else {
          v := BadHierarchy(h);
        }
      } else {
        v := Cyclic;
      }
    }

    /** get_material_children: the out-edges of a node, none without a graph or for an absent node. */
    function GetMaterialChildren(n: Id): (r: seq<(Id, real)>)
      reads this
      ensures forall c, q :: (c, q) in r <==>
        graph.Some? && n in graph.value.nodes && Edge(n, c, q) in graph.value.edges
    {
      NeighboursOfExactly(graph, n);
      ChildrenOf(graph, n)
    }

    /** get_material_parents: the in-edges of a node, none without a graph or for an absent node. */
    function GetMaterialParents(n: Id): (r: seq<(Id, real)>)
      reads this
      ensures forall p, q :: (p, q) in r <==>
        graph.Some? && n in graph.value.nodes && Edge(p, n, q) in graph.value.edges
    {
      NeighboursOfExactly(graph, n);
      ParentsOf(graph, n)
    }

    /** get_material_type: the recorded type, Unknown ("未知") for an unrecorded material. */
    function GetMaterialType(n: Id): (t: MaterialType)
      reads this
      requires Valid()
      ensures n in typeKeys ==> t == types[n]
      ensures n !in typeKeys ==> t == Unknown
    {
      TypeOf(types, n)
    }

    /**
     * explode_bom(root, levels, material_type): the breadth-first loop over
     * the queue with the visited-edge set, followed by the grouping of the
     * appended rows; None without a graph or for a root outside it.
     */
    method ExplodeBom(root: Id, levels: Option<int>, filter: Option<MaterialType>) returns (r: Option<map<Id, Component>>)
      requires Valid()
      ensures r == ExplodeSpec(graph, types, info, Query(root, levels, filter))
    {
      if graph.None? || root !in graph.value.nodes {
        return None;
      }
      var g := graph.value;
      var q := Query(root, levels, filter);
      var queue := Start(root);
      var visited: set<(Id, Id)> := {};
      var out: seq<Entry> := [];
      while |queue| > 0
        invariant visited <= EdgePairs(g)
        invariant Bfs(g, types, info, q, State(queue, visited, out)) == ExplodeEntries(g, types, info, q)
        decreases |EdgePairs(g) - visited|, |queue|
      {
        ghost var s := State(queue, visited, out);
        StepShrinks(g, types, info, q, s);
        var it := queue[0];
        queue := queue[1..];
        if !Drops(g, types, q, it) {
          var children := GetMaterialChildren(it.node);
          ChildrenOfWellFormed(g, it.node);
          if Emits(g, q, it) {
            out := out + [MakeEntry(types, info, it)];
          }
          visited, queue := EnqueueChildren(it.node, it.level, Weight(it), children, visited, queue);
        }
        assert State(queue, visited, out) == Step(g, types, info, q, s);
      }
      var m := GroupRows(out);
      r := Some(m);
    }

    /**
     * The shared body of calculate_raw_material_requirements and
     * calculate_semifinished_requirements: None without a graph; otherwise
     * for each Finished plan row the exploded components of the target type
     * are added to the running totals, times the planned quantity.
     */
    method CalculateRequirements(plan: seq<PlanRow>, target: MaterialType) returns (r: Option<map<Id, Requirement>>)
      requires Valid()
      ensures r == RequirementsSpec(graph, types, info, plan, target)
    {
      if graph.None? {
        return None;
      }
      ghost var ex := Explosions(graph, types, info, target);
      var acc: map<Id, real> := map[];
      var i := 0;
      while i < |plan|
        invariant 0 <= i <= |plan|
        invariant acc == Accumulate(types, ex, plan[..i])
      {
        var row := plan[i];
        AccumulateNext(types, ex, plan, i);
        if GetMaterialType(row.material) == Finished {
          var exploded := ExplodeBom(row.material, None, Some(target));
          assert exploded == ex(row.material);
          if exploded.Some? {
            acc := AddToTotals(acc, exploded.value, row.qty);
          }
        }
        i := i + 1;
      }
      assert plan[..i] == plan;
      var table := RequirementRows(info, acc, target);
      r := Some(table);
    }

    /** calculate_raw_material_requirements: the requirement totals of the raw materials. */
    method CalculateRawMaterialRequirements(plan: seq<PlanRow>) returns (r: Option<map<Id, Requirement>>)
      requires Valid()
      ensures r == RequirementsSpec(graph, types, info, plan, Raw)
    {
      r := CalculateRequirements(plan, Raw);
    }

    /** calculate_semifinished_requirements: the requirement totals of the semi-finished materials. */
    method CalculateSemifinishedRequirements(plan: seq<PlanRow>) returns (r: Option<map<Id, Requirement>>)
      requires Valid()
      ensures r == RequirementsSpec(graph, types, info, plan, SemiFinished)
    {
      r := CalculateRequirements(plan, SemiFinished);
    }
  }
}
