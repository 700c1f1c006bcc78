/**
 * The tables that BOMManager keeps (production_planning_system/models/bom_manager.py)
 * as values: the BOM rows, the ordered `material_types` dict, and the
 * specifications that the BomManager methods are proved against: the
 * row-by-row graph build, degree-based type inference, the hierarchy check
 * and the requirement totals over a production plan.
 */
module BomTables {
  import opened Common
  import opened BomGraph
  import opened Explosion

  /**
   * One BOM row: parent, child and usage, plus the optional description and
   * type columns (None when the column is absent).
   */
  datatype BomRow = BomRow(parent: Id, child: Id, qty: real,
                           parentDesc: Option<string>, childDesc: Option<string>,
                           parentType: Option<MaterialType>, childType: Option<MaterialType>)

  /** A production plan row: material and planned quantity. */
  datatype PlanRow = PlanRow(material: Id, qty: real)

  /** A requirement row, keyed by material: description, type and quantity. */
  datatype Requirement = Requirement(description: string, mtype: MaterialType, qty: real)

  /**
   * `material_types` is a dict: its keys in insertion order, and the map.
   * An existing key keeps its place when its value is replaced.
   */
  ghost predicate TypeTableOk(keys: seq<Id>, types: map<Id, MaterialType>)
  {
    && (forall i, j :: 0 <= i < j < |keys| ==> keys[i] != keys[j])
    && (forall n :: n in keys <==> n in types)
  }

  /** material_types[n] = t, when the type column is present. */
  function SetType(keys: seq<Id>, types: map<Id, MaterialType>, n: Id, t: Option<MaterialType>): (r: (seq<Id>, map<Id, MaterialType>))
  {
    if t.None? then (keys, types)
    else if n in types then (keys, types[n := t.value])
    else (keys + [n], types[n := t.value])
  }

  /** material_info[n]['description'] = d, when the description column is present. */
  function SetDescription(info: map<Id, Info>, n: Id, d: Option<string>): map<Id, Info>
  {
    if d.None? then info else info[n := Info(d, GetOr(info, n, NoInfo).mtype)]
  }

  /** Everything build_bom_graph writes: the graph, `material_info` and `material_types`. */
  datatype Tables = Tables(graph: Graph, info: map<Id, Info>, keys: seq<Id>, types: map<Id, MaterialType>)

  /** One iteration of the row loop of build_bom_graph. */
  function ApplyRow(t: Tables, r: BomRow): Tables
  {
    var info1 := SetDescription(SetDescription(t.info, r.parent, r.parentDesc), r.child, r.childDesc);
    var s1 := SetType(t.keys, t.types, r.parent, r.parentType);
    var s2 := SetType(s1.0, s1.1, r.child, r.childType);
    Tables(AddEdge(t.graph, r.parent, r.child, r.qty), info1, s2.0, s2.1)
  }

  /** The tables after the row loop over `rows`, starting from `start`. */
  function BuildTables(rows: seq<BomRow>, start: Tables): Tables
  {
    if |rows| == 0 then start
    else ApplyRow(BuildTables(rows[..|rows| - 1], start), rows[|rows| - 1])
  }

  /** The quantity of the last row for the (p, c) pair, if any. */
  function LastQty(rows: seq<BomRow>, p: Id, c: Id): Option<real>
  {
    if |rows| == 0 then None
    else if rows[|rows| - 1].parent == p && rows[|rows| - 1].child == c then Some(rows[|rows| - 1].qty)
    else LastQty(rows[..|rows| - 1], p, c)
  }

  /** The last description given for n (a child column is written after the parent one). */
  function LastDescription(rows: seq<BomRow>, n: Id): Option<string>
  {
    if |rows| == 0 then None
    else
      var r := rows[|rows| - 1];
      if r.child == n && r.childDesc.Some? then r.childDesc
      else if r.parent == n && r.parentDesc.Some? then r.parentDesc
      else LastDescription(rows[..|rows| - 1], n)
  }

  /** The last explicit type given for n. */
  function LastType(rows: seq<BomRow>, n: Id): Option<MaterialType>
  {
    if |rows| == 0 then None
    else
      var r := rows[|rows| - 1];
      if r.child == n && r.childType.Some? then r.childType
      else if r.parent == n && r.parentType.Some? then r.parentType
      else LastType(rows[..|rows| - 1], n)
  }

  lemma SetTypeOk(keys: seq<Id>, types: map<Id, MaterialType>, n: Id, t: Option<MaterialType>)
    requires TypeTableOk(keys, types)
    ensures TypeTableOk(SetType(keys, types, n, t).0, SetType(keys, types, n, t).1)
    ensures keys <= SetType(keys, types, n, t).0
  {
  }

  /** The build keeps the graph well formed and the type table consistent. */
  lemma {:induction false} BuildTablesOk(rows: seq<BomRow>, start: Tables)
    requires WellFormed(start.graph) && TypeTableOk(start.keys, start.types)
    ensures WellFormed(BuildTables(rows, start).graph)
    ensures TypeTableOk(BuildTables(rows, start).keys, BuildTables(rows, start).types)
  {
    if |rows| > 0 {
      var t := BuildTables(rows[..|rows| - 1], start);
      var r := rows[|rows| - 1];
      BuildTablesOk(rows[..|rows| - 1], start);
      AddEdgeWellFormed(t.graph, r.parent, r.child, r.qty);
      SetTypeOk(t.keys, t.types, r.parent, r.parentType);
      var s1 := SetType(t.keys, t.types, r.parent, r.parentType);
      SetTypeOk(s1.0, s1.1, r.child, r.childType);
    }
  }

  /**
   * Each (parent, child) pair ends with the quantity of its last row: a
   * repeated row replaces the edge's quantity instead of adding to it, and a
   * pair without rows has no edge.
   */
  lemma {:induction false} BuildEdgeQty(rows: seq<BomRow>, info: map<Id, Info>, keys: seq<Id>, types: map<Id, MaterialType>, p: Id, c: Id)
    ensures EdgeQty(BuildTables(rows, Tables(EmptyGraph, info, keys, types)).graph.edges, p, c) == LastQty(rows, p, c)
  {
    if |rows| > 0 {
      var start := Tables(EmptyGraph, info, keys, types);
      var t := BuildTables(rows[..|rows| - 1], start);
      var r := rows[|rows| - 1];
      BuildEdgeQty(rows[..|rows| - 1], info, keys, types, p, c);
      var g1 := AddNode(AddNode(t.graph, r.parent), r.child);
      assert g1.edges == t.graph.edges;
      UpsertOverwrites(g1.edges, r.parent, r.child, r.qty, p, c);
    }
  }

  /**
   * Descriptions are last-write-wins: a material's description is the last
   * one the rows give for it, or the one it had before the build.
   */
  lemma {:induction false} BuildDescription(rows: seq<BomRow>, start: Tables, n: Id)
    ensures var info := BuildTables(rows, start).info;
      if LastDescription(rows, n).Some? then n in info && info[n].description == LastDescription(rows, n)
      else GetOr(info, n, NoInfo).description == GetOr(start.info, n, NoInfo).description
  {
    if |rows| > 0 {
      BuildDescription(rows[..|rows| - 1], start, n);
      ApplyRowDescription(BuildTables(rows[..|rows| - 1], start), rows[|rows| - 1], n);
    }
  }

  /** One row writes the child's description after the parent's. */
  lemma ApplyRowDescription(t: Tables, r: BomRow, n: Id)
    ensures var info := ApplyRow(t, r).info;
      if r.child == n && r.childDesc.Some? then n in info && info[n].description == r.childDesc
      else if r.parent == n && r.parentDesc.Some? then n in info && info[n].description == r.parentDesc
      else GetOr(info, n, NoInfo).description == GetOr(t.info, n, NoInfo).description
  {
  }

  /**
   * Explicit types are last-write-wins: a material's type is the last one the
   * rows give for it, or the one it had before the build.
   */
  lemma {:induction false} BuildType(rows: seq<BomRow>, start: Tables, n: Id)
    ensures var types := BuildTables(rows, start).types;
      if LastType(rows, n).Some? then n in types && types[n] == LastType(rows, n).value
      else (n in types <==> n in start.types) && (n in types ==> types[n] == start.types[n])
  {
    if |rows| > 0 {
      BuildType(rows[..|rows| - 1], start, n);
      ApplyRowType(BuildTables(rows[..|rows| - 1], start), rows[|rows| - 1], n);
    }
  }

  /** One row writes the child's type after the parent's. */
  lemma ApplyRowType(t: Tables, r: BomRow, n: Id)
    ensures var types := ApplyRow(t, r).types;
      if r.child == n && r.childType.Some? then n in types && types[n] == r.childType.value
      else if r.parent == n && r.parentType.Some? then n in types && types[n] == r.parentType.value
      else (n in types <==> n in t.types) && (n in types ==> types[n] == t.types[n])
  {
  }

  // ---------------------------------------------------------------------
  // Type inference

  /** The degree rule of infer_material_types for a node without a type. */
  function InferredType(g: Graph, n: Id): MaterialType
  {
    var out, inn := OutDegree(g, n), InDegree(g, n);
    if out == 0 && inn > 0 then Raw
    else if out > 0 && inn == 0 then Finished
    else if out > 0 && inn > 0 then SemiFinished
    else Unknown
  }

  /**
   * In terms of the edges: Raw is used by something and uses nothing, Finished
   * uses something and is used by nothing, SemiFinished both, Unknown neither.
   */
  lemma InferredTypeByEdges(g: Graph, n: Id)
    ensures var uses := exists k :: 0 <= k < |g.edges| && g.edges[k].parent == n;
      var used := exists k :: 0 <= k < |g.edges| && g.edges[k].child == n;
      && (InferredType(g, n) == Raw <==> !uses && used)
      && (InferredType(g, n) == Finished <==> uses && !used)
      && (InferredType(g, n) == SemiFinished <==> uses && used)
      && (InferredType(g, n) == Unknown <==> !uses && !used)
  {
    ChildrenInEmpty(g.edges, n);
    ParentsInEmpty(g.edges, n);
  }

  /** The node loop of infer_material_types: untyped nodes get the degree rule's type. */
  function InferFrom(g: Graph, ns: seq<Id>, keys: seq<Id>, types: map<Id, MaterialType>): (seq<Id>, map<Id, MaterialType>)
    decreases |ns|
  {
    if |ns| == 0 then (keys, types)
    else if ns[0] in types then InferFrom(g, ns[1..], keys, types)
    else InferFrom(g, ns[1..], keys + [ns[0]], types[ns[0] := InferredType(g, ns[0])])
  }

  /**
   * Inference never reclassifies a typed material; afterwards every node has
   * a type, and a node that had none has the degree rule's type. No other
   * material gains a type, and the type table stays consistent.
   */
  lemma {:induction false} InferFromSpec(g: Graph, ns: seq<Id>, keys: seq<Id>, types: map<Id, MaterialType>)
    requires TypeTableOk(keys, types)
    ensures var r := InferFrom(g, ns, keys, types);
      && TypeTableOk(r.0, r.1)
      && keys <= r.0
      && (forall n :: n in types ==> n in r.1 && r.1[n] == types[n])
      && (forall n :: n in ns ==> n in r.1)
      && (forall n :: n in ns && n !in types ==> r.1[n] == InferredType(g, n))
      && (forall n :: n in r.1 ==> n in types || n in ns)
    decreases |ns|
  {
    if |ns| > 0 {
      assert forall n :: n in ns <==> n == ns[0] || n in ns[1..];
      if ns[0] in types {
        InferFromSpec(g, ns[1..], keys, types);
      } else {
        InferFromSpec(g, ns[1..], keys + [ns[0]], types[ns[0] := InferredType(g, ns[0])]);
      }
    }
  }

  /** The second loop of infer_material_types: material_info[m]['type'] = material_types[m]. */
  function RecordTypes(info: map<Id, Info>, types: map<Id, MaterialType>, done: set<Id>): (r: map<Id, Info>)
    requires done <= types.Keys
  {
    map n | n in info.Keys + done :: if n in done then Info(GetOr(info, n, NoInfo).description, Some(types[n])) else info[n]
  }

  /** Recording one more material updates only that material's entry. */
  lemma RecordTypesStep(info: map<Id, Info>, types: map<Id, MaterialType>, done: set<Id>, m: Id)
    requires done <= types.Keys && m in types && m !in done
    ensures var before := RecordTypes(info, types, done);
      RecordTypes(info, types, done + {m}) == before[m := Info(GetOr(before, m, NoInfo).description, Some(types[m]))]
  {
    var before := RecordTypes(info, types, done);
    assert GetOr(before, m, NoInfo) == GetOr(info, m, NoInfo);
  }

  // ---------------------------------------------------------------------
  // Hierarchy check

  /** The result of validate_hierarchy; a failure names the first material that breaks the rules. */
  datatype Hierarchy = HierarchyOk | NoTypes | BadFinished(node: Id) | BadSemiFinished(node: Id)

  /** `get_material_children`: nothing when the graph is not built or the material is not in it. */
  function ChildrenOf(graph: Option<Graph>, n: Id): seq<(Id, real)>
  {
    if graph.None? || n !in graph.value.nodes then [] else Children(graph.value, n)
  }

  /** `get_material_parents`: nothing when the graph is not built or the material is not in it. */
  function ParentsOf(graph: Option<Graph>, n: Id): seq<(Id, real)>
  {
    if graph.None? || n !in graph.value.nodes then [] else Parents(graph.value, n)
  }

  /** The getters list exactly the out- and in-edges of a material that is in the graph. */
  lemma NeighboursOfExactly(graph: Option<Graph>, n: Id)
    ensures forall c, q :: (c, q) in ChildrenOf(graph, n) <==>
      graph.Some? && n in graph.value.nodes && Edge(n, c, q) in graph.value.edges
    ensures forall p, q :: (p, q) in ParentsOf(graph, n) <==>
      graph.Some? && n in graph.value.nodes && Edge(p, n, q) in graph.value.edges
  {
    if graph.Some? {
      NeighboursExactly(graph.value, n);
    }
  }

  /** The types of a material's children, "未知" for an untyped child. */
  function ChildTypes(graph: Option<Graph>, types: map<Id, MaterialType>, n: Id): seq<MaterialType>
  {
    var ch := ChildrenOf(graph, n);
    seq(|ch|, k requires 0 <= k < |ch| => TypeOf(types, ch[k].0))
  }

  predicate AllRaw(ts: seq<MaterialType>)
  {
    forall k :: 0 <= k < |ts| ==> ts[k] == Raw
  }

  /**
   * A Finished material is made directly from raw materials, or from raw
   * materials together with semi-finished ones; a semi-finished material is
   * made from raw materials only. A material without children passes.
   */
  predicate MaterialOk(graph: Option<Graph>, types: map<Id, MaterialType>, n: Id, t: MaterialType)
  {
    var ts := ChildTypes(graph, types, n);
    match t
    case Finished => |ts| == 0 || AllRaw(ts) || (Raw in ts && SemiFinished in ts)
    case SemiFinished => |ts| == 0 || AllRaw(ts)
    case _ => true
  }

  /** The loop of validate_hierarchy over `material_types` in insertion order. */
  function FirstViolation(graph: Option<Graph>, types: map<Id, MaterialType>, ks: seq<Id>): (r: Hierarchy)
    requires forall n :: n in ks ==> n in types
  {
    if |ks| == 0 then HierarchyOk
    else if !MaterialOk(graph, types, ks[0], types[ks[0]]) then
      (if types[ks[0]] == Finished then BadFinished(ks[0]) else BadSemiFinished(ks[0]))
    else FirstViolation(graph, types, ks[1..])
  }

  /** validate_hierarchy: no types at all fails, otherwise the first violation, if any. */
  function CheckHierarchy(graph: Option<Graph>, keys: seq<Id>, types: map<Id, MaterialType>): Hierarchy
    requires forall n :: n in keys ==> n in types
  {
    if |types| == 0 then NoTypes else FirstViolation(graph, types, keys)
  }

  /** The check passes exactly when every typed material passes the rule for its type. */
  lemma {:induction false} FirstViolationOk(graph: Option<Graph>, types: map<Id, MaterialType>, ks: seq<Id>)
    requires forall n :: n in ks ==> n in types
    ensures FirstViolation(graph, types, ks) == HierarchyOk <==>
      forall k :: 0 <= k < |ks| ==> MaterialOk(graph, types, ks[k], types[ks[k]])
  {
    if |ks| > 0 {
      assert forall n :: n in ks[1..] ==> n in ks;
      FirstViolationOk(graph, types, ks[1..]);
      assert forall k :: 0 < k < |ks| ==> ks[k] == ks[1..][k - 1];
    }
  }

  /** es[i] is the first material in ks that breaks the rule for its type. */
  predicate FirstBad(graph: Option<Graph>, types: map<Id, MaterialType>, ks: seq<Id>, i: int)
    requires forall n :: n in ks ==> n in types
  {
    && 0 <= i < |ks|
    && !MaterialOk(graph, types, ks[i], types[ks[i]])
    && (forall k :: 0 <= k < i ==> MaterialOk(graph, types, ks[k], types[ks[k]]))
  }

  /**
   * When the check fails, the reported material is the first in dict order
   * that breaks the rule for its type.
   */
  lemma {:induction false} FirstViolationFirst(graph: Option<Graph>, types: map<Id, MaterialType>, ks: seq<Id>)
    requires forall n :: n in ks ==> n in types
    ensures FirstViolation(graph, types, ks) != HierarchyOk ==>
      exists i :: FirstBad(graph, types, ks, i) &&
        FirstViolation(graph, types, ks) == (if types[ks[i]] == Finished then BadFinished(ks[i]) else BadSemiFinished(ks[i]))
  {
    if |ks| > 0 {
      var r := FirstViolation(graph, types, ks);
      assert forall n :: n in ks[1..] ==> n in ks;
      if !MaterialOk(graph, types, ks[0], types[ks[0]]) {
        assert FirstBad(graph, types, ks, 0);
      } else if r != HierarchyOk {
        FirstViolationFirst(graph, types, ks[1..]);
        var i :| FirstBad(graph, types, ks[1..], i) &&
          r == (if types[ks[1..][i]] == Finished then BadFinished(ks[1..][i]) else BadSemiFinished(ks[1..][i]));
        assert ks[i + 1] == ks[1..][i];
        forall k | 0 <= k < i + 1 ensures MaterialOk(graph, types, ks[k], types[ks[k]]) {
          if k > 0 {
            assert ks[k] == ks[1..][k - 1];
          }
        }
        assert FirstBad(graph, types, ks, i + 1);
      }
    }
  }

  /** Only Finished and SemiFinished materials can fail, and each failure names its kind. */
  lemma ViolationKinds(graph: Option<Graph>, types: map<Id, MaterialType>, ks: seq<Id>)
    requires forall n :: n in ks ==> n in types
    ensures var r := FirstViolation(graph, types, ks);
      && r != NoTypes
      && (r.BadFinished? ==> r.node in ks && types[r.node] == Finished && !MaterialOk(graph, types, r.node, Finished))
      && (r.BadSemiFinished? ==> r.node in ks && types[r.node] == SemiFinished && !MaterialOk(graph, types, r.node, SemiFinished))
  {
    if FirstViolation(graph, types, ks) != HierarchyOk {
      FirstViolationFirst(graph, types, ks);
    }
  }

  // ---------------------------------------------------------------------
  // Requirement totals

  /** A component's quantity for `qty` units of the product: comp_qty * quantity. */
  function Share(comp: Component, qty: real): real
  {
    comp.total * qty
  }

  /** requirements[c] += total_c * quantity for the components in `done`. */
  function AddSome(acc: map<Id, real>, comps: map<Id, Component>, done: set<Id>, qty: real): map<Id, real>
    requires done <= comps.Keys
  {
    map c | c in acc.Keys + done :: GetOr(acc, c, 0.0) + (if c in done then Share(comps[c], qty) else 0.0)
  }

  /** One product row's exploded components added to the running totals. */
  function AddComponents(acc: map<Id, real>, comps: map<Id, Component>, qty: real): map<Id, real>
  {
    AddSome(acc, comps, comps.Keys, qty)
  }

  /** The explosion of one plan row, restricted to the target type. */
  function ExplodeRow(graph: Option<Graph>, types: map<Id, MaterialType>, info: map<Id, Info>, m: Id, target: MaterialType): Option<map<Id, Component>>
  {
    ExplodeSpec(graph, types, info, Query(m, None, Some(target)))
  }

  /** explode_bom(m, material_type=target) as a function of the product m. */
  function Explosions(graph: Option<Graph>, types: map<Id, MaterialType>, info: map<Id, Info>, target: MaterialType): Id -> Option<map<Id, Component>>
  {
    m => ExplodeRow(graph, types, info, m, target)
  }

  /** The accumulation loop over the production plan rows, for explosions `ex`. */
  function Accumulate(types: map<Id, MaterialType>, ex: Id -> Option<map<Id, Component>>, plan: seq<PlanRow>): map<Id, real>
  {
    if |plan| == 0 then map[]
    else
      var acc := Accumulate(types, ex, plan[..|plan| - 1]);
      var r := plan[|plan| - 1];
      if TypeOf(types, r.material) != Finished then acc
      else match ex(r.material)
        case None => acc
        case Some(comps) => AddComponents(acc, comps, r.qty)
  }

  /** The loop over the first i+1 plan rows is the loop over the first i followed by row i. */
  lemma AccumulateNext(types: map<Id, MaterialType>, ex: Id -> Option<map<Id, Component>>, plan: seq<PlanRow>, i: nat)
    requires i < |plan|
    ensures var acc := Accumulate(types, ex, plan[..i]);
      var r := plan[i];
      Accumulate(types, ex, plan[..i + 1]) ==
        if TypeOf(types, r.material) != Finished || ex(r.material).None? then acc
        else AddComponents(acc, ex(r.material).value, r.qty)
  {
    assert plan[..i + 1][..i] == plan[..i];
  }

  /** The requirement table built from the totals. */
  function RequirementTable(info: map<Id, Info>, acc: map<Id, real>, target: MaterialType): map<Id, Requirement>
  {
    map c | c in acc :: Requirement(DescriptionOf(info, c), target, acc[c])
  }

  /**
   * calculate_raw_material_requirements (target Raw) and
   * calculate_semifinished_requirements (target SemiFinished): None without a
   * graph, otherwise one row per component reached from a Finished plan row.
   */
  function RequirementsSpec(graph: Option<Graph>, types: map<Id, MaterialType>, info: map<Id, Info>,
                            plan: seq<PlanRow>, target: MaterialType): Option<map<Id, Requirement>>
  {
    if graph.None? then None
    else Some(RequirementTable(info, Accumulate(types, Explosions(graph, types, info, target), plan), target))
  }

  /** What one plan row contributes to component c: its exploded total times the planned quantity. */
  function Contribution(types: map<Id, MaterialType>, ex: Id -> Option<map<Id, Component>>, r: PlanRow, c: Id): real
  {
    if TypeOf(types, r.material) != Finished then 0.0
    else match ex(r.material)
      case None => 0.0
      case Some(comps) => if c in comps then Share(comps[c], r.qty) else 0.0
  }

  /** Whether plan row r is a Finished product whose explosion contains c. */
  predicate Reaches(types: map<Id, MaterialType>, ex: Id -> Option<map<Id, Component>>, r: PlanRow, c: Id)
  {
    TypeOf(types, r.material) == Finished && ex(r.material).Some? && c in ex(r.material).value
  }

  function SumContributions(types: map<Id, MaterialType>, ex: Id -> Option<map<Id, Component>>, plan: seq<PlanRow>, c: Id): real
  {
    if |plan| == 0 then 0.0
    else SumContributions(types, ex, plan[..|plan| - 1], c) + Contribution(types, ex, plan[|plan| - 1], c)
  }

  /** A component has a requirement exactly when some Finished plan row reaches it. */
  lemma {:induction false} AccumulateKeys(types: map<Id, MaterialType>, ex: Id -> Option<map<Id, Component>>, plan: seq<PlanRow>, c: Id)
    ensures c in Accumulate(types, ex, plan) <==> exists i :: 0 <= i < |plan| && Reaches(types, ex, plan[i], c)
  {
    if |plan| > 0 {
      var init := plan[..|plan| - 1];
      AccumulateKeys(types, ex, init, c);
      assert forall i :: 0 <= i < |init| ==> init[i] == plan[i];
    }
  }

  /**
   * A component's requirement is the sum over the plan rows of its exploded
   * total times the planned quantity; rows that are not Finished contribute
   * nothing.
   */
  lemma {:induction false} AccumulateSums(types: map<Id, MaterialType>, ex: Id -> Option<map<Id, Component>>, plan: seq<PlanRow>, c: Id)
    ensures GetOr(Accumulate(types, ex, plan), c, 0.0) == SumContributions(types, ex, plan, c)
  {
    if |plan| > 0 {
      AccumulateSums(types, ex, plan[..|plan| - 1], c);
    }
  }

  /** The requirement loop over the one-row example plan adds M001's raw explosion times 10. */
  lemma ExampleAccumulate()
    ensures Accumulate(ExampleTypes(), Explosions(Some(ExampleGraph()), ExampleTypes(), map[], Raw), [PlanRow("M001", 10.0)])
         == AddComponents(map[], ExplodeSpec(Some(ExampleGraph()), ExampleTypes(), map[], Query("M001", None, Some(Raw))).value, 10.0)
  {
    var plan := [PlanRow("M001", 10.0)];
    var types := ExampleTypes();
    var ex := Explosions(Some(ExampleGraph()), types, map[], Raw);
    ExampleKeys(Some(Raw));
    assert ex("M001") == ExplodeSpec(Some(ExampleGraph()), types, map[], Query("M001", None, Some(Raw)));
    assert TypeOf(types, "M001") == Finished;
    AccumulateOne(types, ex, plan[0]);
  }

  /** The requirement loop over a one-row plan. */
  lemma AccumulateOne(types: map<Id, MaterialType>, ex: Id -> Option<map<Id, Component>>, r: PlanRow)
    ensures Accumulate(types, ex, [r]) ==
      if TypeOf(types, r.material) != Finished || ex(r.material).None? then map[]
      else AddComponents(map[], ex(r.material).value, r.qty)
  {
    assert [r][..0] == [];
  }

  /**
   * A plan of 10 units of M001 (built from R001 at 5 and C001 at 3 per unit)
   * needs 50 of R001 and 30 of C001.
   */
  lemma ExampleRequirements()
    ensures var r := RequirementsSpec(Some(ExampleGraph()), ExampleTypes(), map[], [PlanRow("M001", 10.0)], Raw);
      && r.Some? && r.value.Keys == {"R001", "C001"}
      && r.value["R001"] == Requirement(UnknownDescription, Raw, 50.0)
      && r.value["C001"] == Requirement(UnknownDescription, Raw, 30.0)
  {
    ExampleExplosion(Some(Raw));
    ExampleAccumulate();
    var comps := ExplodeSpec(Some(ExampleGraph()), ExampleTypes(), map[], Query("M001", None, Some(Raw))).value;
    var acc := AddComponents(map[], comps, 10.0);
    assert acc.Keys == comps.Keys;
    var r := RequirementTable(map[], acc, Raw);
    assert r.Keys == acc.Keys;
  }

  /**
   * Every requirement row carries the target type and its own description,
   * and (in a well-formed graph) names a material whose own type is the target.
   */
  lemma RequirementsTyped(graph: Option<Graph>, types: map<Id, MaterialType>, info: map<Id, Info>,
                          plan: seq<PlanRow>, target: MaterialType)
    requires graph.Some? ==> WellFormed(graph.value)
    ensures RequirementsSpec(graph, types, info, plan, target).None? <==> graph.None?
    ensures RequirementsSpec(graph, types, info, plan, target).Some? ==>
      forall c :: c in RequirementsSpec(graph, types, info, plan, target).value ==>
        && RequirementsSpec(graph, types, info, plan, target).value[c].mtype == target
        && RequirementsSpec(graph, types, info, plan, target).value[c].description == DescriptionOf(info, c)
        && TypeOf(types, c) == target
  {
    if graph.Some? {
      var ex := Explosions(graph, types, info, target);
      var acc := Accumulate(types, ex, plan);
      forall c | c in acc ensures TypeOf(types, c) == target {
        AccumulateKeys(types, ex, plan, c);
        var i :| 0 <= i < |plan| && Reaches(types, ex, plan[i], c);
        var q := Query(plan[i].material, None, Some(target));
        assert ex(plan[i].material) == ExplodeSpec(graph, types, info, q);
        ExplodeSound(graph.value, types, info, q);
        var m := ExplodeSpec(graph, types, info, q).value;
        assert ComponentOk(graph.value, types, info, q, c, m[c]);
      }
    }
  }
}
