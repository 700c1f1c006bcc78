/**
 * `explode_bom` (production_planning_system/models/bom_manager.py:335-423)
 * as a specification: the breadth-first traversal over a queue of
 * (material, quantity, level, path multiplier) entries with a set of visited
 * (parent, child) edges, the level and type filters, and the final
 * per-component grouping (sum of quantities, minimum level, first
 * description and type). The method in BomManager runs the same loop and is
 * proved equal to `ExplodeSpec`.
 */
module Explosion {
  import opened Common
  import opened BomGraph

  /** A queue entry (material, edge quantity, level, path multiplier). */
  datatype QItem = QItem(node: Id, qty: real, level: int, mult: real)

  /** A component row as the traversal appends it, before grouping. */
  datatype Entry = Entry(id: Id, description: string, mtype: MaterialType, total: real, level: int)

  /** A row of the grouped result, keyed by component id. */
  datatype Component = Component(description: string, mtype: MaterialType, total: real, level: int)

  /** The arguments of explode_bom: root material, `levels` and `material_type`. */
  datatype Query = Query(root: Id, levels: Option<int>, filter: Option<MaterialType>)

  function EdgePairs(g: Graph): set<(Id, Id)>
  {
    set e | e in g.edges :: (e.parent, e.child)
  }

  /** The (cur, child) edges of a list of children. */
  function ChildPairs(cur: Id, ch: seq<(Id, real)>): set<(Id, Id)>
  {
    if |ch| == 0 then {} else {(cur, ch[0].0)} + ChildPairs(cur, ch[1..])
  }

  lemma {:induction false} ChildPairsOfEdges(g: Graph, n: Id, ch: seq<(Id, real)>)
    requires forall k :: 0 <= k < |ch| ==> Edge(n, ch[k].0, ch[k].1) in g.edges
    ensures ChildPairs(n, ch) <= EdgePairs(g)
  {
    if |ch| > 0 {
      var e := Edge(n, ch[0].0, ch[0].1);
      assert e in g.edges;
      assert (n, ch[0].0) == (e.parent, e.child);
      ChildPairsOfEdges(g, n, ch[1..]);
    }
  }

  lemma ChildPairsInGraph(g: Graph, n: Id)
    ensures ChildPairs(n, Children(g, n)) <= EdgePairs(g)
  {
    var ch := Children(g, n);
    forall k | 0 <= k < |ch| ensures Edge(n, ch[k].0, ch[k].1) in g.edges {
      assert ch[k] in ch;
      NeighbourQueries(g, n, ch[k].0, ch[k].1);
    }
    ChildPairsOfEdges(g, n, ch);
  }

  /** The start of the traversal: the root with quantity 1, level 0, multiplier 1. */
  function Start(root: Id): seq<QItem>
  {
    [QItem(root, 1.0, 0, 1.0)]
  }

  /** What enqueueing the children ch of cur turns (visited, queue) into, as the result r. */
  predicate EnqueueOk(cur: Id, level: int, mult: real, ch: seq<(Id, real)>,
                      visited: set<(Id, Id)>, queue: seq<QItem>, r: (set<(Id, Id)>, seq<QItem>))
  {
    && visited <= r.0 <= visited + ChildPairs(cur, ch)
    && |r.1| == |queue| + |r.0 - visited|
    && r.1[..|queue|] == queue
    && forall i :: |queue| <= i < |r.1| ==>
      && r.1[i].level == level + 1 && r.1[i].mult == mult
      && (r.1[i].node, r.1[i].qty) in ch
  }

  /** Skipping a visited first child keeps what the rest of the children do. */
  lemma EnqueueSkipOk(cur: Id, level: int, mult: real, ch: seq<(Id, real)>,
                      visited: set<(Id, Id)>, queue: seq<QItem>, r: (set<(Id, Id)>, seq<QItem>))
    requires |ch| > 0 && (cur, ch[0].0) in visited
    requires EnqueueOk(cur, level, mult, ch[1..], visited, queue, r)
    ensures EnqueueOk(cur, level, mult, ch, visited, queue, r)
  {
    assert forall i :: |queue| <= i < |r.1| ==> (r.1[i].node, r.1[i].qty) in ch[1..];
  }

  /** Enqueueing an unvisited first child adds one edge and one entry in front of the rest. */
  lemma EnqueueFreshOk(cur: Id, level: int, mult: real, ch: seq<(Id, real)>,
                       visited: set<(Id, Id)>, queue: seq<QItem>, r: (set<(Id, Id)>, seq<QItem>))
    requires |ch| > 0 && (cur, ch[0].0) !in visited
    requires EnqueueOk(cur, level, mult, ch[1..], visited + {(cur, ch[0].0)},
                       queue + [QItem(ch[0].0, ch[0].1, level + 1, mult)], r)
    ensures EnqueueOk(cur, level, mult, ch, visited, queue, r)
  {
    var c := ch[0].0;
    var v1 := visited + {(cur, c)};
    var q1 := queue + [QItem(c, ch[0].1, level + 1, mult)];
    assert r.0 - visited == (r.0 - v1) + {(cur, c)};
    assert r.1[..|queue|] == r.1[..|q1|][..|queue|];
    assert forall i :: |q1| <= i < |r.1| ==> (r.1[i].node, r.1[i].qty) in ch[1..];
    assert r.1[|queue|] == r.1[..|q1|][|queue|] == q1[|queue|];
  }

  /**
   * The inner loop of the traversal: each child whose (cur, child) edge is
   * not yet visited is marked visited and enqueued one level down.
   * Each enqueued entry stands for one newly visited edge, so every edge is
   * enqueued at most once.
   */
  function Enqueue(cur: Id, level: int, mult: real, ch: seq<(Id, real)>,
                   visited: set<(Id, Id)>, queue: seq<QItem>): (r: (set<(Id, Id)>, seq<QItem>))
    ensures EnqueueOk(cur, level, mult, ch, visited, queue, r)
    decreases |ch|
  {
    if |ch| == 0 then (visited, queue)
    else
      var c := ch[0].0;
      if (cur, c) in visited then
        var r := Enqueue(cur, level, mult, ch[1..], visited, queue);
        EnqueueSkipOk(cur, level, mult, ch, visited, queue, r);
        r
      else
        var r := Enqueue(cur, level, mult, ch[1..], visited + {(cur, c)}, queue + [QItem(c, ch[0].1, level + 1, mult)]);
        EnqueueFreshOk(cur, level, mult, ch, visited, queue, r);
        r
  }

  lemma SubsetCard<X>(s: set<X>, t: set<X>)
    requires s <= t
    ensures |s| <= |t|
  {
    assert t == s + (t - s);
  }

  lemma GrowingSetShrinksRemainder<X>(a: set<X>, b: set<X>, e: set<X>)
    requires a <= b <= e && a != b
    ensures |e - b| < |e - a|
  {
    var x :| x in b && x !in a;
    var s, t := e - b, e - a;
    assert s <= t - {x};
    assert |t - {x}| == |t| - 1;
    SubsetCard(s, t - {x});
  }

  /** The multiplier passed to a popped entry's children: path_multiplier * qty. */
  function Weight(it: QItem): real
  {
    it.mult * it.qty
  }

  /** Enqueueing the children of a popped entry. */
  function Expand(g: Graph, it: QItem, visited: set<(Id, Id)>, rest: seq<QItem>): (set<(Id, Id)>, seq<QItem>)
  {
    Enqueue(it.node, it.level, Weight(it), Children(g, it.node), visited, rest)
  }

  /** One step of the traversal either visits a new edge or shortens the queue. */
  lemma EnqueueShrinks(g: Graph, it: QItem, visited: set<(Id, Id)>, rest: seq<QItem>)
    requires visited <= EdgePairs(g)
    ensures var nx := Expand(g, it, visited, rest);
      && nx.0 <= EdgePairs(g)
      && (nx.0 == visited ==> |nx.1| == |rest|)
      && (nx.0 != visited ==> |EdgePairs(g) - nx.0| < |EdgePairs(g) - visited|)
  {
    var nx := Expand(g, it, visited, rest);
    ChildPairsInGraph(g, it.node);
    if nx.0 != visited {
      GrowingSetShrinksRemainder(visited, nx.0, EdgePairs(g));
    }
  }

  /** Whether a popped entry is appended: a leaf or at the level limit, and not the root. */
  predicate Emits(g: Graph, q: Query, it: QItem)
  {
    (|Children(g, it.node)| == 0 || (q.levels.Some? && it.level == q.levels.value)) && it.node != q.root
  }

  /** The row appended for a popped entry: its quantity is qty * path_multiplier. */
  function MakeEntry(types: map<Id, MaterialType>, info: map<Id, Info>, it: QItem): Entry
  {
    Entry(it.node, DescriptionOf(info, it.node), TypeOf(types, it.node), it.qty * it.mult, it.level)
  }

  /**
   * Whether a popped entry is dropped without enqueueing its children: it is
   * deeper than `levels`, or it would be appended but fails the type filter.
   */
  predicate Drops(g: Graph, types: map<Id, MaterialType>, q: Query, it: QItem)
  {
    (q.levels.Some? && it.level > q.levels.value)
    || (Emits(g, q, it) && q.filter.Some? && TypeOf(types, it.node) != q.filter.value)
  }

  /** The loop state of explode_bom: the queue, the visited edges and the appended rows. */
  datatype State = State(queue: seq<QItem>, visited: set<(Id, Id)>, out: seq<Entry>)

  /**
   * One iteration of the `while queue` loop. An entry deeper than `levels`
   * is dropped; an entry that would be appended but fails the type filter is
   * dropped too, and its children are not enqueued (the `continue` skips
   * them); otherwise the entry is appended if it emits and its children are
   * enqueued.
   */
  function Step(g: Graph, types: map<Id, MaterialType>, info: map<Id, Info>, q: Query, s: State): (r: State)
    requires |s.queue| > 0
  {
    var it := s.queue[0];
    var rest := s.queue[1..];
    if Drops(g, types, q, it) then State(rest, s.visited, s.out)
    else
      var out' := if Emits(g, q, it) then s.out + [MakeEntry(types, info, it)] else s.out;
      var nx := Expand(g, it, s.visited, rest);
      State(nx.1, nx.0, out')
  }

  /** Each step either visits a new edge or shortens the queue, so the traversal ends. */
  lemma StepShrinks(g: Graph, types: map<Id, MaterialType>, info: map<Id, Info>, q: Query, s: State)
    requires |s.queue| > 0 && s.visited <= EdgePairs(g)
    ensures var r := Step(g, types, info, q, s);
      && r.visited <= EdgePairs(g)
      && (r.visited == s.visited ==> |r.queue| < |s.queue|)
      && (r.visited != s.visited ==> |EdgePairs(g) - r.visited| < |EdgePairs(g) - s.visited|)
  {
    var it := s.queue[0];
    var r := Step(g, types, info, q, s);
    if Drops(g, types, q, it) {
      assert r == State(s.queue[1..], s.visited, s.out);
    } else {
      var nx := Expand(g, it, s.visited, s.queue[1..]);
      assert r.queue == nx.1 && r.visited == nx.0;
      EnqueueShrinks(g, it, s.visited, s.queue[1..]);
    }
  }

  /** The traversal: steps until the queue is empty and returns the appended rows. */
  function Bfs(g: Graph, types: map<Id, MaterialType>, info: map<Id, Info>, q: Query, s: State): seq<Entry>
    requires s.visited <= EdgePairs(g)
    decreases |EdgePairs(g) - s.visited|, |s.queue|
  {
    if |s.queue| == 0 then s.out
    else
      StepShrinks(g, types, info, q, s);
      Bfs(g, types, info, q, Step(g, types, info, q, s))
  }

  function Init(root: Id): State
  {
    State(Start(root), {}, [])
  }

  function ExplodeEntries(g: Graph, types: map<Id, MaterialType>, info: map<Id, Info>, q: Query): seq<Entry>
  {
    Bfs(g, types, info, q, Init(q.root))
  }

  function MinInt(a: int, b: int): int
  {
    if a <= b then a else b
  }

  /** `groupby('组件编号').agg(first, first, sum, min)` over the appended rows. */
  function Group(es: seq<Entry>): map<Id, Component>
  {
    if |es| == 0 then map[]
    else
      var m := Group(es[..|es| - 1]);
      var e := es[|es| - 1];
      if e.id in m then
        m[e.id := Component(m[e.id].description, m[e.id].mtype, m[e.id].total + e.total, MinInt(m[e.id].level, e.level))]
      else
        m[e.id := Component(e.description, e.mtype, e.total, e.level)]
  }

  /** The sum of the quantities of the rows for component c. */
  function SumTotal(es: seq<Entry>, c: Id): real
  {
    if |es| == 0 then 0.0
    else SumTotal(es[..|es| - 1], c) + (if es[|es| - 1].id == c then es[|es| - 1].total else 0.0)
  }

  /**
   * explode_bom's result: None when the graph is not built or the root is
   * not one of its nodes, otherwise the grouped rows of the traversal.
   */
  function ExplodeSpec(graph: Option<Graph>, types: map<Id, MaterialType>, info: map<Id, Info>, q: Query): Option<map<Id, Component>>
  {
    if graph.None? || q.root !in graph.value.nodes then None
    else Some(Group(ExplodeEntries(graph.value, types, info, q)))
  }

  // ---------------------------------------------------------------------
  // Grouping

  /** Grouping keeps exactly one row per component id that occurs. */
  lemma {:induction false} GroupKeys(es: seq<Entry>)
    ensures forall c :: c in Group(es) <==> exists i :: 0 <= i < |es| && es[i].id == c
  {
    if |es| > 0 {
      var init := es[..|es| - 1];
      GroupKeys(init);
      assert forall i :: 0 <= i < |init| ==> es[i] == init[i];
    }
  }

  /** A grouped quantity is the sum of that component's rows. */
  lemma {:induction false} GroupTotal(es: seq<Entry>)
    ensures forall c :: c in Group(es) ==> Group(es)[c].total == SumTotal(es, c)
  {
    if |es| > 0 {
      var init := es[..|es| - 1];
      GroupTotal(init);
      GroupKeys(init);
      forall c | c in Group(es) && c !in Group(init)
        ensures SumTotal(init, c) == 0.0
      {
        SumTotalAbsent(init, c);
      }
    }
  }

  lemma {:induction false} SumTotalAbsent(es: seq<Entry>, c: Id)
    requires forall i :: 0 <= i < |es| ==> es[i].id != c
    ensures SumTotal(es, c) == 0.0
  {
    if |es| > 0 {
      var init := es[..|es| - 1];
      assert forall i :: 0 <= i < |init| ==> init[i] == es[i];
      SumTotalAbsent(init, c);
    }
  }

  /** A grouped level is the least level among that component's rows. */
  lemma {:induction false} GroupLevel(es: seq<Entry>)
    ensures forall c :: c in Group(es) ==>
      && (forall i :: 0 <= i < |es| && es[i].id == c ==> Group(es)[c].level <= es[i].level)
      && (exists i :: 0 <= i < |es| && es[i].id == c && Group(es)[c].level == es[i].level)
  {
    if |es| > 0 {
      var init := es[..|es| - 1];
      var n := |es| - 1;
      GroupLevel(init);
      GroupKeys(init);
      assert forall i :: 0 <= i < |init| ==> es[i] == init[i];
      var m, m0 := Group(es), Group(init);
      forall c | c in m
        ensures forall i :: 0 <= i < |es| && es[i].id == c ==> m[c].level <= es[i].level
        ensures exists i :: 0 <= i < |es| && es[i].id == c && m[c].level == es[i].level
      {
        if c in m0 {
          var i0 :| 0 <= i0 < |init| && init[i0].id == c && m0[c].level == init[i0].level;
          if c == es[n].id && es[n].level < m0[c].level {
            assert es[n].id == c && m[c].level == es[n].level;
          } else {
            assert es[i0].id == c && m[c].level == es[i0].level;
          }
        } else {
          assert es[n].id == c && m[c].level == es[n].level;
        }
      }
    }
  }

  /** es[i] is the first row for component c. */
  predicate FirstRow(es: seq<Entry>, c: Id, i: int)
  {
    0 <= i < |es| && es[i].id == c && forall j :: 0 <= j < i ==> es[j].id != c
  }

  /** A grouped description and type are those of the component's first row. */
  lemma {:induction false} GroupFirst(es: seq<Entry>)
    ensures forall c :: c in Group(es) ==> exists i ::
      FirstRow(es, c, i) && Group(es)[c].description == es[i].description && Group(es)[c].mtype == es[i].mtype
  {
    if |es| > 0 {
      var init := es[..|es| - 1];
      var n := |es| - 1;
      GroupFirst(init);
      GroupKeys(init);
      assert forall i :: 0 <= i < |init| ==> es[i] == init[i];
      var m, m0 := Group(es), Group(init);
      forall c | c in m
        ensures exists i :: FirstRow(es, c, i) && m[c].description == es[i].description && m[c].mtype == es[i].mtype
      {
        if c in m0 {
          var i :| FirstRow(init, c, i) && m0[c].description == init[i].description && m0[c].mtype == init[i].mtype;
          assert FirstRow(es, c, i);
        } else {
          assert FirstRow(es, c, n);
        }
      }
    }
  }

  // ---------------------------------------------------------------------
  // Soundness of the traversal

  /** A queue entry stands for a path from the root of level+1 nodes whose quantity is mult*qty. */
  ghost predicate ItemOk(g: Graph, root: Id, it: QItem)
  {
    exists path :: RootedPath(g, root, path, it.node) && |path| == it.level + 1 && PathQty(g, path) == Weight(it)
  }

  /** What every appended row satisfies. */
  ghost predicate EntryOk(g: Graph, types: map<Id, MaterialType>, info: map<Id, Info>, q: Query, e: Entry)
  {
    && e.id != q.root
    && e.mtype == TypeOf(types, e.id)
    && e.description == DescriptionOf(info, e.id)
    && (q.filter.Some? ==> e.mtype == q.filter.value)
    && (q.levels.Some? ==> e.level <= q.levels.value)
    && (|Children(g, e.id)| == 0 || (q.levels.Some? && e.level == q.levels.value))
    && exists path :: RootedPath(g, q.root, path, e.id) && |path| == e.level + 1 && PathQty(g, path) == e.total
  }

  ghost predicate StateOk(g: Graph, types: map<Id, MaterialType>, info: map<Id, Info>, q: Query, s: State)
  {
    && (forall x :: x in s.queue ==> ItemOk(g, q.root, x))
    && (forall e :: e in s.out ==> EntryOk(g, types, info, q, e))
  }

  /** A child entry extends its parent's path by one edge. */
  lemma ChildItemOk(g: Graph, root: Id, path: seq<Id>, n: Id, x: QItem)
    requires WellFormed(g)
    requires RootedPath(g, root, path, n)
    requires (x.node, x.qty) in Children(g, n)
    requires |path| == x.level && PathQty(g, path) == x.mult
    ensures ItemOk(g, root, x)
  {
    ChildQty(g, n, x.node, x.qty);
    EdgeItemOk(g, root, path, n, x);
  }

  /** The same, for a child reached along an edge of the given quantity. */
  lemma EdgeItemOk(g: Graph, root: Id, path: seq<Id>, n: Id, x: QItem)
    requires RootedPath(g, root, path, n)
    requires EdgeQty(g.edges, n, x.node) == Some(x.qty)
    requires |path| == x.level && PathQty(g, path) == x.mult
    ensures ItemOk(g, root, x)
  {
    ExtendPath(g, root, path, n, x.node, x.qty);
    var p' := path + [x.node];
    PathItemOk(g, root, p', x);
  }

  /** A rooted path of the entry's length and weight witnesses the entry. */
  lemma PathItemOk(g: Graph, root: Id, path: seq<Id>, x: QItem)
    requires RootedPath(g, root, path, x.node) && |path| == x.level + 1 && PathQty(g, path) == Weight(x)
    ensures ItemOk(g, root, x)
  {
  }

  lemma EnqueueKeepsItemsOk(g: Graph, root: Id, it: QItem, visited: set<(Id, Id)>, rest: seq<QItem>)
    requires WellFormed(g)
    requires ItemOk(g, root, it)
    requires forall x :: x in rest ==> ItemOk(g, root, x)
    ensures var nx := Expand(g, it, visited, rest);
      forall x :: x in nx.1 ==> ItemOk(g, root, x)
  {
    var ch := Children(g, it.node);
    var nx := Expand(g, it, visited, rest);
    var path :| RootedPath(g, root, path, it.node) && |path| == it.level + 1 && PathQty(g, path) == Weight(it);
    forall i | 0 <= i < |nx.1| ensures ItemOk(g, root, nx.1[i]) {
      if i < |rest| {
        assert nx.1[i] == nx.1[..|rest|][i] == rest[i];
        assert rest[i] in rest;
      } else {
        ChildItemOk(g, root, path, it.node, nx.1[i]);
      }
    }
    assert forall x :: x in nx.1 ==> exists i :: 0 <= i < |nx.1| && nx.1[i] == x;
  }

  lemma EmittedEntryOk(g: Graph, types: map<Id, MaterialType>, info: map<Id, Info>, q: Query, it: QItem)
    requires ItemOk(g, q.root, it)
    requires !(q.levels.Some? && it.level > q.levels.value)
    requires Emits(g, q, it)
    requires q.filter.Some? ==> TypeOf(types, it.node) == q.filter.value
    ensures EntryOk(g, types, info, q, MakeEntry(types, info, it))
  {
    var e := MakeEntry(types, info, it);
    var path :| RootedPath(g, q.root, path, it.node) && |path| == it.level + 1 && PathQty(g, path) == Weight(it);
    assert PathQty(g, path) == e.total;
  }

  lemma StepKeepsItems(g: Graph, types: map<Id, MaterialType>, info: map<Id, Info>, q: Query, s: State)
    requires WellFormed(g)
    requires |s.queue| > 0 && s.visited <= EdgePairs(g)
    requires forall x :: x in s.queue ==> ItemOk(g, q.root, x)
    ensures forall x :: x in Step(g, types, info, q, s).queue ==> ItemOk(g, q.root, x)
  {
    var it := s.queue[0];
    var rest := s.queue[1..];
    assert it in s.queue;
    assert forall x :: x in rest ==> x in s.queue;
    var s' := Step(g, types, info, q, s);
    if Drops(g, types, q, it) {
      assert s'.queue == rest;
    } else {
      var nx := Expand(g, it, s.visited, rest);
      assert s'.queue == nx.1;
      EnqueueKeepsItemsOk(g, q.root, it, s.visited, rest);
    }
  }

  lemma StepKeepsEntries(g: Graph, types: map<Id, MaterialType>, info: map<Id, Info>, q: Query, s: State)
    requires |s.queue| > 0 && s.visited <= EdgePairs(g)
    requires ItemOk(g, q.root, s.queue[0])
    requires forall e :: e in s.out ==> EntryOk(g, types, info, q, e)
    ensures forall e :: e in Step(g, types, info, q, s).out ==> EntryOk(g, types, info, q, e)
  {
    var it := s.queue[0];
    if !Drops(g, types, q, it) {
      if Emits(g, q, it) {
        EmittedEntryOk(g, types, info, q, it);
      }
    }
  }

  lemma StepSound(g: Graph, types: map<Id, MaterialType>, info: map<Id, Info>, q: Query, s: State)
    requires WellFormed(g)
    requires |s.queue| > 0 && s.visited <= EdgePairs(g)
    requires StateOk(g, types, info, q, s)
    ensures StateOk(g, types, info, q, Step(g, types, info, q, s))
  {
    assert s.queue[0] in s.queue;
    StepKeepsItems(g, types, info, q, s);
    StepKeepsEntries(g, types, info, q, s);
  }

  lemma {:induction false} BfsSound(g: Graph, types: map<Id, MaterialType>, info: map<Id, Info>, q: Query, s: State)
    requires WellFormed(g)
    requires s.visited <= EdgePairs(g)
    requires StateOk(g, types, info, q, s)
    ensures forall e :: e in Bfs(g, types, info, q, s) ==> EntryOk(g, types, info, q, e)
    decreases |EdgePairs(g) - s.visited|, |s.queue|
  {
    if |s.queue| > 0 {
      StepSound(g, types, info, q, s);
      StepShrinks(g, types, info, q, s);
      BfsSound(g, types, info, q, Step(g, types, info, q, s));
    }
  }

  /** Rows already appended stay at the front of the result. */
  lemma {:induction false} BfsKeepsOut(g: Graph, types: map<Id, MaterialType>, info: map<Id, Info>, q: Query, s: State)
    requires s.visited <= EdgePairs(g)
    ensures s.out <= Bfs(g, types, info, q, s)
    decreases |EdgePairs(g) - s.visited|, |s.queue|
  {
    if |s.queue| > 0 {
      var s' := Step(g, types, info, q, s);
      StepShrinks(g, types, info, q, s);
      assert s.out <= s'.out;
      BfsKeepsOut(g, types, info, q, s');
    }
  }

  /**
   * A popped entry within the level limit that is a leaf or sits exactly at
   * the limit, is not the root and passes the type filter is appended, even
   * when it has children.
   */
  lemma BfsEmitsFront(g: Graph, types: map<Id, MaterialType>, info: map<Id, Info>, q: Query, s: State)
    requires s.visited <= EdgePairs(g)
    requires |s.queue| > 0
    requires !(q.levels.Some? && s.queue[0].level > q.levels.value)
    requires Emits(g, q, s.queue[0])
    requires q.filter.Some? ==> TypeOf(types, s.queue[0].node) == q.filter.value
    ensures MakeEntry(types, info, s.queue[0]) in Bfs(g, types, info, q, s)
  {
    var s' := Step(g, types, info, q, s);
    StepShrinks(g, types, info, q, s);
    assert s'.out == s.out + [MakeEntry(types, info, s.queue[0])];
    BfsKeepsOut(g, types, info, q, s');
    var r := Bfs(g, types, info, q, s');
    assert r[|s.out|] == s'.out[|s.out|];
  }

  /** Every row of the traversal from the root satisfies EntryOk. */
  lemma ExplodeEntriesOk(g: Graph, types: map<Id, MaterialType>, info: map<Id, Info>, q: Query)
    requires WellFormed(g)
    ensures forall e :: e in ExplodeEntries(g, types, info, q) ==> EntryOk(g, types, info, q, e)
  {
    assert RootedPath(g, q.root, [q.root], q.root);
    assert ItemOk(g, q.root, QItem(q.root, 1.0, 0, 1.0));
    assert StateOk(g, types, info, q, Init(q.root));
    BfsSound(g, types, info, q, Init(q.root));
  }

  // ---------------------------------------------------------------------
  // Completeness of the traversal without a level limit

  /**
   * A node the traversal has to report when `levels` is None: below the
   * root, without children, and of the filtered type.
   */
  ghost predicate Wanted(g: Graph, types: map<Id, MaterialType>, q: Query, n: Id)
  {
    n != q.root && |Children(g, n)| == 0 && (q.filter.Some? ==> TypeOf(types, n) == q.filter.value)
  }

  /** Some row of es is for component n. */
  predicate HasRow(es: seq<Entry>, n: Id)
  {
    exists i :: 0 <= i < |es| && es[i].id == n
  }

  /** Some entry of the queue is for material n. */
  predicate Queued(queue: seq<QItem>, n: Id)
  {
    exists i :: 0 <= i < |queue| && queue[i].node == n
  }

  /**
   * What the traversal keeps about the set of materials already popped: the
   * root is popped or queued; every edge out of a popped material is
   * visited; the child of every visited edge is popped or queued; and every
   * popped material the traversal has to report has a row.
   */
  ghost predicate CoverOk(g: Graph, types: map<Id, MaterialType>, q: Query, s: State, popped: set<Id>)
  {
    && (q.root in popped || Queued(s.queue, q.root))
    && (forall e :: e in g.edges && e.parent in popped ==> (e.parent, e.child) in s.visited)
    && (forall pr :: pr in s.visited ==> pr.1 in popped || Queued(s.queue, pr.1))
    && (forall n :: n in popped && Wanted(g, types, q, n) ==> HasRow(s.out, n))
  }

  lemma {:induction false} ChildPairsHas(cur: Id, ch: seq<(Id, real)>, k: int)
    requires 0 <= k < |ch|
    ensures (cur, ch[k].0) in ChildPairs(cur, ch)
  {
    if k > 0 {
      ChildPairsHas(cur, ch[1..], k - 1);
    }
  }

  /** Every edge out of a popped entry's material is visited afterwards. */
  lemma EdgesOutVisited(g: Graph, n: Id, e: Edge)
    requires e in g.edges && e.parent == n
    ensures (n, e.child) in ChildPairs(n, Children(g, n))
  {
    NeighbourQueries(g, n, e.child, e.qty);
    var ch := Children(g, n);
    var k :| 0 <= k < |ch| && ch[k] == (e.child, e.qty);
    ChildPairsHas(n, ch, k);
  }

  /**
   * Enqueueing visits every (cur, child) edge of the list, and the child of
   * each newly visited edge gets an entry behind the old queue.
   */
  lemma {:induction false} EnqueueCovers(cur: Id, level: int, mult: real, ch: seq<(Id, real)>,
                                         visited: set<(Id, Id)>, queue: seq<QItem>)
    ensures var r := Enqueue(cur, level, mult, ch, visited, queue);
      && ChildPairs(cur, ch) <= r.0
      && forall pr :: pr in r.0 ==> pr in visited || exists i :: |queue| <= i < |r.1| && r.1[i].node == pr.1
    decreases |ch|
  {
    if |ch| > 0 {
      var c := ch[0].0;
      if (cur, c) in visited {
        EnqueueCovers(cur, level, mult, ch[1..], visited, queue);
      } else {
        var q1 := queue + [QItem(c, ch[0].1, level + 1, mult)];
        EnqueueCovers(cur, level, mult, ch[1..], visited + {(cur, c)}, q1);
        var r := Enqueue(cur, level, mult, ch, visited, queue);
        assert r.1[..|q1|] == q1;
        assert r.1[|queue|] == r.1[..|q1|][|queue|];
        assert r.1[|queue|].node == c;
      }
    }
  }

  lemma QueuedAfterPop(queue: seq<QItem>, n: Id)
    requires Queued(queue, n)
    ensures n == queue[0].node || Queued(queue[1..], n)
  {
    var i :| 0 <= i < |queue| && queue[i].node == n;
    if i > 0 {
      assert queue[1..][i - 1] == queue[i];
    }
  }

  lemma QueuedKept(a: seq<QItem>, b: seq<QItem>, n: Id)
    requires |a| <= |b| && b[..|a|] == a
    requires Queued(a, n)
    ensures Queued(b, n)
  {
    var i :| 0 <= i < |a| && a[i].node == n;
    assert b[i] == b[..|a|][i];
  }

  lemma HasRowKept(a: seq<Entry>, b: seq<Entry>, n: Id)
    requires a <= b && HasRow(a, n)
    ensures HasRow(b, n)
  {
    var i :| 0 <= i < |a| && a[i].id == n;
    assert b[i] == a[i];
  }

  /** A material without children is the parent of no edge. */
  lemma LeafHasNoEdges(g: Graph, n: Id, e: Edge)
    requires |Children(g, n)| == 0 && e in g.edges
    ensures e.parent != n
  {
    NeighbourQueries(g, n, e.child, e.qty);
  }

  /** A dropped entry (no level limit) pops its material and changes nothing else. */
  lemma DropCovers(g: Graph, types: map<Id, MaterialType>, q: Query, s: State, popped: set<Id>)
    requires q.levels.None? && |s.queue| > 0
    requires Drops(g, types, q, s.queue[0])
    requires CoverOk(g, types, q, s, popped)
    ensures CoverOk(g, types, q, State(s.queue[1..], s.visited, s.out), popped + {s.queue[0].node})
  {
    var it := s.queue[0];
    var p' := popped + {it.node};
    forall e | e in g.edges && e.parent in p' ensures (e.parent, e.child) in s.visited {
      if e.parent !in popped {
        LeafHasNoEdges(g, it.node, e);
      }
    }
    forall n | Queued(s.queue, n) ensures n in p' || Queued(s.queue[1..], n) {
      QueuedAfterPop(s.queue, n);
    }
  }

  /** An expanded entry pops its material, visits its edges and queues their children. */
  lemma ExpandCovers(g: Graph, types: map<Id, MaterialType>, info: map<Id, Info>, q: Query, s: State, popped: set<Id>)
    requires q.levels.None? && |s.queue| > 0
    requires !Drops(g, types, q, s.queue[0])
    requires CoverOk(g, types, q, s, popped)
    ensures CoverOk(g, types, q, Step(g, types, info, q, s), popped + {s.queue[0].node})
  {
    var it := s.queue[0];
    var rest := s.queue[1..];
    var p' := popped + {it.node};
    var nx := Expand(g, it, s.visited, rest);
    var s' := Step(g, types, info, q, s);
    assert s'.queue == nx.1 && s'.visited == nx.0;
    EnqueueCovers(it.node, it.level, Weight(it), Children(g, it.node), s.visited, rest);
    forall e | e in g.edges && e.parent in p' ensures (e.parent, e.child) in nx.0 {
      if e.parent == it.node {
        EdgesOutVisited(g, it.node, e);
      }
    }
    forall n | Queued(s.queue, n) ensures n in p' || Queued(nx.1, n) {
      QueuedAfterPop(s.queue, n);
      if n != it.node {
        QueuedKept(rest, nx.1, n);
      }
    }
    forall pr | pr in nx.0 ensures pr.1 in p' || Queued(nx.1, pr.1) {
      if pr !in s.visited {
        var i :| |rest| <= i < |nx.1| && nx.1[i].node == pr.1;
        assert Queued(nx.1, pr.1);
      }
    }
    assert s.out <= s'.out;
    forall n | n in p' && Wanted(g, types, q, n) ensures HasRow(s'.out, n) {
      if n in popped {
        HasRowKept(s.out, s'.out, n);
      } else {
        assert s'.out[|s.out|] == MakeEntry(types, info, it);
      }
    }
  }

  /**
   * Without a level limit, the traversal ends with a set of popped materials
   * that holds the root, is closed under edges, and whose members it has to
   * report all have rows.
   */
  lemma {:induction false} BfsCovers(g: Graph, types: map<Id, MaterialType>, info: map<Id, Info>, q: Query, s: State, popped: set<Id>)
    returns (done: set<Id>)
    requires q.levels.None?
    requires s.visited <= EdgePairs(g)
    requires CoverOk(g, types, q, s, popped)
    ensures q.root in done
    ensures forall e :: e in g.edges && e.parent in done ==> e.child in done
    ensures forall n :: n in done && Wanted(g, types, q, n) ==> HasRow(Bfs(g, types, info, q, s), n)
    decreases |EdgePairs(g) - s.visited|, |s.queue|
  {
    if |s.queue| == 0 {
      done := popped;
      forall e | e in g.edges && e.parent in done ensures e.child in done {
        assert (e.parent, e.child) in s.visited;
      }
    } else {
      if Drops(g, types, q, s.queue[0]) {
        DropCovers(g, types, q, s, popped);
      } else {
        ExpandCovers(g, types, info, q, s, popped);
      }
      StepShrinks(g, types, info, q, s);
      done := BfsCovers(g, types, info, q, Step(g, types, info, q, s), popped + {s.queue[0].node});
    }
  }

  /** A set of materials closed under edges holds every node of a path that starts in it. */
  lemma {:induction false} ClosedHoldsPath(g: Graph, done: set<Id>, path: seq<Id>, i: int)
    requires IsPath(g, path) && path[0] in done && 0 <= i < |path|
    requires forall e :: e in g.edges && e.parent in done ==> e.child in done
    ensures path[i] in done
  {
    if i > 0 {
      ClosedHoldsPath(g, done, path, i - 1);
      assert HasEdge(g.edges, path[i - 1], path[i]);
      var e :| e in g.edges && e.parent == path[i - 1] && e.child == path[i];
    }
  }

  /**
   * Without a level limit the explosion is complete: every material below
   * the root that is reached from it, has no children and passes the type
   * filter is a component of the result.
   */
  lemma ExplodeComplete(g: Graph, types: map<Id, MaterialType>, info: map<Id, Info>, q: Query, path: seq<Id>, c: Id)
    requires q.root in g.nodes && q.levels.None?
    requires RootedPath(g, q.root, path, c)
    requires c != q.root && |Children(g, c)| == 0
    requires q.filter.Some? ==> TypeOf(types, c) == q.filter.value
    ensures ExplodeSpec(Some(g), types, info, q).Some?
    ensures c in ExplodeSpec(Some(g), types, info, q).value
  {
    var s := Init(q.root);
    assert s.queue[0].node == q.root;
    assert CoverOk(g, types, q, s, {});
    var done := BfsCovers(g, types, info, q, s, {});
    ClosedHoldsPath(g, done, path, |path| - 1);
    assert Wanted(g, types, q, c);
    var es := ExplodeEntries(g, types, info, q);
    GroupKeys(es);
  }

  // ---------------------------------------------------------------------
  // Completeness of the traversal with a level limit

  /** Material n was popped at a level at most b, or has a queue entry at such a level. */
  predicate Reached(queue: seq<QItem>, first: map<Id, QItem>, n: Id, b: int)
  {
    (n in first && first[n].level <= b) || exists i :: 0 <= i < |queue| && queue[i].node == n && queue[i].level <= b
  }

  /** Queue levels never decrease and lie within one level of the front. */
  predicate LevelOrdered(queue: seq<QItem>)
  {
    && (forall i, j :: 0 <= i <= j < |queue| ==> queue[i].level <= queue[j].level)
    && (forall i :: 0 <= i < |queue| ==> queue[i].level <= queue[0].level + 1)
  }

  /** The entry each popped material was first popped with, after popping it. */
  function NextFirst(first: map<Id, QItem>, it: QItem): map<Id, QItem>
  {
    if it.node in first then first else first[it.node := it]
  }

  /** Every queue entry stands for a rooted path. */
  ghost predicate QueueItemsOk(g: Graph, q: Query, queue: seq<QItem>)
  {
    forall x :: x in queue ==> ItemOk(g, q.root, x)
  }

  /** Every first pop is an entry for its own material that stands for a rooted path. */
  ghost predicate FirstOk(g: Graph, q: Query, first: map<Id, QItem>)
  {
    forall n :: n in first ==> first[n].node == n && ItemOk(g, q.root, first[n])
  }

  /** No queue entry is shallower than a first pop. */
  predicate Behind(first: map<Id, QItem>, queue: seq<QItem>)
  {
    forall n, i :: n in first && 0 <= i < |queue| ==> first[n].level <= queue[i].level
  }

  /** The child of a visited edge is reached one level below its parent's first pop. */
  predicate VisitedReached(first: map<Id, QItem>, queue: seq<QItem>, visited: set<(Id, Id)>)
  {
    forall pr :: pr in visited ==> pr.0 in first && Reached(queue, first, pr.1, first[pr.0].level + 1)
  }

  /** A first pop that is not dropped has visited every edge out of its material. */
  predicate FirstExpanded(g: Graph, types: map<Id, MaterialType>, q: Query, first: map<Id, QItem>, visited: set<(Id, Id)>)
  {
    forall n, e :: n in first && !Drops(g, types, q, first[n]) && e in g.edges && e.parent == n ==>
      (n, e.child) in visited
  }

  /** A first pop that is not dropped and emits has appended a row. */
  predicate FirstRows(g: Graph, types: map<Id, MaterialType>, q: Query, first: map<Id, QItem>, out: seq<Entry>)
  {
    forall n :: n in first && !Drops(g, types, q, first[n]) && Emits(g, q, first[n]) ==> HasRow(out, n)
  }

  /**
   * What the traversal keeps about `first`, the entry each popped material
   * was first popped with: queue entries and first pops stand for rooted
   * paths; the queue is in level order and no shallower than any first pop;
   * the root is reached at level 0; the child of a visited edge is reached
   * one level below its parent's first pop; and a first pop that is not
   * dropped has visited every edge out of its material and, if it emits,
   * appended a row.
   */
  ghost predicate LevelCoverOk(g: Graph, types: map<Id, MaterialType>, q: Query, s: State, first: map<Id, QItem>)
  {
    && LevelOrdered(s.queue)
    && QueueItemsOk(g, q, s.queue)
    && FirstOk(g, q, first)
    && Behind(first, s.queue)
    && Reached(s.queue, first, q.root, 0)
    && VisitedReached(first, s.queue, s.visited)
    && FirstExpanded(g, types, q, first, s.visited)
    && FirstRows(g, types, q, first, s.out)
  }

  /** An entry that is dropped stays dropped at any deeper level. */
  lemma DropsDeeper(g: Graph, types: map<Id, MaterialType>, q: Query, a: QItem, b: QItem)
    requires a.node == b.node && a.level <= b.level
    requires Drops(g, types, q, a)
    ensures Drops(g, types, q, b)
  {
  }

  /** The queue after popping the front and appending entries one level down. */
  predicate PopPush(queue: seq<QItem>, nq: seq<QItem>)
  {
    && |queue| > 0 && |queue| - 1 <= |nq| && nq[..|queue| - 1] == queue[1..]
    && forall i :: |queue| - 1 <= i < |nq| ==> nq[i].level == queue[0].level + 1
  }

  /** Popping the front and appending entries one level down keeps the level order. */
  lemma LevelOrderedStep(queue: seq<QItem>, nq: seq<QItem>, first: map<Id, QItem>)
    requires PopPush(queue, nq) && LevelOrdered(queue) && Behind(first, queue)
    ensures LevelOrdered(nq)
    ensures Behind(NextFirst(first, queue[0]), nq)
  {
    var k := |queue| - 1;
    forall i | 0 <= i < k ensures nq[i] == queue[i + 1] {
      assert nq[i] == nq[..k][i];
    }
    forall i | 0 <= i < |nq| ensures queue[0].level <= nq[i].level {
      if i < k {
        assert nq[i] == queue[i + 1];
      }
    }
  }

  /** What is reached before a step is reached after it. */
  lemma ReachedStep(queue: seq<QItem>, nq: seq<QItem>, first: map<Id, QItem>, n: Id, b: int)
    requires |queue| > 0 && |queue| - 1 <= |nq| && nq[..|queue| - 1] == queue[1..]
    requires queue[0].node in first ==> first[queue[0].node].level <= queue[0].level
    requires Reached(queue, first, n, b)
    ensures Reached(nq, NextFirst(first, queue[0]), n, b)
  {
    if !(n in first && first[n].level <= b) {
      var i :| 0 <= i < |queue| && queue[i].node == n && queue[i].level <= b;
      if i > 0 {
        assert nq[i - 1] == nq[..|queue| - 1][i - 1] == queue[i];
      }
    }
  }

  /** The edges visited before a step stay reached after it. */
  lemma VisitedReachedStep(queue: seq<QItem>, nq: seq<QItem>, first: map<Id, QItem>, visited: set<(Id, Id)>)
    requires PopPush(queue, nq) && Behind(first, queue) && VisitedReached(first, queue, visited)
    ensures VisitedReached(NextFirst(first, queue[0]), nq, visited)
  {
    var f := NextFirst(first, queue[0]);
    forall pr | pr in visited ensures pr.0 in f && Reached(nq, f, pr.1, f[pr.0].level + 1) {
      ReachedStep(queue, nq, first, pr.1, first[pr.0].level + 1);
    }
  }

  /** The queue part of the invariant after one step that leaves nq as the queue. */
  lemma LevelQueueStep(g: Graph, q: Query, s: State, first: map<Id, QItem>, nq: seq<QItem>)
    requires PopPush(s.queue, nq) && LevelOrdered(s.queue) && QueueItemsOk(g, q, s.queue)
    requires FirstOk(g, q, first) && Behind(first, s.queue)
    requires Reached(s.queue, first, q.root, 0) && VisitedReached(first, s.queue, s.visited)
    ensures var f := NextFirst(first, s.queue[0]);
      && LevelOrdered(nq)
      && FirstOk(g, q, f)
      && Behind(f, nq)
      && Reached(nq, f, q.root, 0)
      && VisitedReached(f, nq, s.visited)
  {
    assert s.queue[0] in s.queue;
    LevelOrderedStep(s.queue, nq, first);
    ReachedStep(s.queue, nq, first, q.root, 0);
    VisitedReachedStep(s.queue, nq, first, s.visited);
  }

  /** Recording a first pop that is dropped, or a material popped before, keeps the edge and row parts. */
  lemma FirstKept(g: Graph, types: map<Id, MaterialType>, q: Query, first: map<Id, QItem>, it: QItem,
                  visited: set<(Id, Id)>, out: seq<Entry>)
    requires it.node in first || Drops(g, types, q, it)
    requires FirstExpanded(g, types, q, first, visited) && FirstRows(g, types, q, first, out)
    ensures FirstExpanded(g, types, q, NextFirst(first, it), visited)
    ensures FirstRows(g, types, q, NextFirst(first, it), out)
  {
  }

  /** A dropped entry records its first pop and changes nothing else. */
  lemma DropLevelCovers(g: Graph, types: map<Id, MaterialType>, q: Query, s: State, first: map<Id, QItem>)
    requires |s.queue| > 0 && Drops(g, types, q, s.queue[0])
    requires LevelCoverOk(g, types, q, s, first)
    ensures LevelCoverOk(g, types, q, State(s.queue[1..], s.visited, s.out), NextFirst(first, s.queue[0]))
  {
    var rest := s.queue[1..];
    assert forall x :: x in rest ==> x in s.queue;
    assert QueueItemsOk(g, q, rest);
    LevelQueueStep(g, q, s, first, rest);
    FirstKept(g, types, q, first, s.queue[0], s.visited, s.out);
  }

  /** A material popped again whose first pop was not dropped has all its edges visited already. */
  lemma RepopVisitsNothing(g: Graph, types: map<Id, MaterialType>, q: Query, s: State, first: map<Id, QItem>)
    requires |s.queue| > 0 && FirstOk(g, q, first) && Behind(first, s.queue)
    requires FirstExpanded(g, types, q, first, s.visited)
    requires s.queue[0].node in first && !Drops(g, types, q, s.queue[0])
    ensures Expand(g, s.queue[0], s.visited, s.queue[1..]).0 == s.visited
  {
    var it := s.queue[0];
    var n := it.node;
    if Drops(g, types, q, first[n]) {
      DropsDeeper(g, types, q, first[n], it);
    }
    ChildPairsInGraph(g, n);
    forall pr | pr in ChildPairs(n, Children(g, n)) ensures pr in s.visited {
      ChildPairsMember(n, Children(g, n), pr);
      var e :| e in g.edges && (e.parent, e.child) == pr;
    }
  }

  /** The edges newly visited by an expanded entry lead to children queued one level below its first pop. */
  lemma ExpandNewReached(g: Graph, types: map<Id, MaterialType>, q: Query, s: State, first: map<Id, QItem>)
    requires |s.queue| > 0 && FirstOk(g, q, first) && Behind(first, s.queue)
    requires FirstExpanded(g, types, q, first, s.visited)
    requires !Drops(g, types, q, s.queue[0])
    requires VisitedReached(NextFirst(first, s.queue[0]), Expand(g, s.queue[0], s.visited, s.queue[1..]).1, s.visited)
    ensures VisitedReached(NextFirst(first, s.queue[0]), Expand(g, s.queue[0], s.visited, s.queue[1..]).1,
                           Expand(g, s.queue[0], s.visited, s.queue[1..]).0)
  {
    var it := s.queue[0];
    var rest := s.queue[1..];
    var nx := Expand(g, it, s.visited, rest);
    var f := NextFirst(first, it);
    if it.node in first {
      RepopVisitsNothing(g, types, q, s, first);
    } else {
      FreshPopReached(s, first[it.node := it], Children(g, it.node));
    }
  }

  /** The children a first pop queues are reached one level below it. */
  lemma FreshPopReached(s: State, f: map<Id, QItem>, ch: seq<(Id, real)>)
    requires |s.queue| > 0 && s.queue[0].node in f && f[s.queue[0].node] == s.queue[0]
    ensures var it := s.queue[0];
      var nx := Enqueue(it.node, it.level, Weight(it), ch, s.visited, s.queue[1..]);
      forall pr :: pr in nx.0 && pr !in s.visited ==> pr.0 in f && Reached(nx.1, f, pr.1, f[pr.0].level + 1)
  {
    var it := s.queue[0];
    var rest := s.queue[1..];
    var nx := Enqueue(it.node, it.level, Weight(it), ch, s.visited, rest);
    EnqueueCovers(it.node, it.level, Weight(it), ch, s.visited, rest);
    forall pr | pr in nx.0 && pr !in s.visited ensures pr.0 in f && Reached(nx.1, f, pr.1, f[pr.0].level + 1) {
      ChildPairsMember(it.node, ch, pr);
      var i :| |rest| <= i < |nx.1| && nx.1[i].node == pr.1;
      assert nx.1[i].level == it.level + 1;
    }
  }

  /** A first pop that is expanded visits every edge out of its material. */
  lemma ExpandFirstExpanded(g: Graph, types: map<Id, MaterialType>, q: Query, s: State, first: map<Id, QItem>)
    requires |s.queue| > 0 && FirstExpanded(g, types, q, first, s.visited)
    ensures FirstExpanded(g, types, q, NextFirst(first, s.queue[0]), Expand(g, s.queue[0], s.visited, s.queue[1..]).0)
  {
    var it := s.queue[0];
    var nx := Expand(g, it, s.visited, s.queue[1..]);
    var f := NextFirst(first, it);
    EnqueueCovers(it.node, it.level, Weight(it), Children(g, it.node), s.visited, s.queue[1..]);
    forall n, e | n in f && !Drops(g, types, q, f[n]) && e in g.edges && e.parent == n ensures (n, e.child) in nx.0 {
      if n in first {
        assert (n, e.child) in s.visited;
      } else {
        EdgesOutVisited(g, n, e);
      }
    }
  }

  /** An expanded first pop that emits appends its row. */
  lemma ExpandFirstRows(g: Graph, types: map<Id, MaterialType>, info: map<Id, Info>, q: Query, s: State, first: map<Id, QItem>)
    requires |s.queue| > 0 && !Drops(g, types, q, s.queue[0])
    requires FirstRows(g, types, q, first, s.out)
    ensures var it := s.queue[0];
      FirstRows(g, types, q, NextFirst(first, it), if Emits(g, q, it) then s.out + [MakeEntry(types, info, it)] else s.out)
  {
    var it := s.queue[0];
    var f := NextFirst(first, it);
    var out' := if Emits(g, q, it) then s.out + [MakeEntry(types, info, it)] else s.out;
    assert s.out <= out';
    forall n | n in f && !Drops(g, types, q, f[n]) && Emits(g, q, f[n]) ensures HasRow(out', n) {
      if n in first {
        HasRowKept(s.out, out', n);
      } else {
        assert out'[|s.out|] == MakeEntry(types, info, it);
      }
    }
  }

  /** Expanding an entry keeps every queue entry standing for a rooted path. */
  lemma ExpandItemsOk(g: Graph, q: Query, s: State)
    requires WellFormed(g) && |s.queue| > 0 && QueueItemsOk(g, q, s.queue)
    ensures QueueItemsOk(g, q, Expand(g, s.queue[0], s.visited, s.queue[1..]).1)
  {
    assert s.queue[0] in s.queue;
    assert forall x :: x in s.queue[1..] ==> x in s.queue;
    EnqueueKeepsItemsOk(g, q.root, s.queue[0], s.visited, s.queue[1..]);
  }

  /** Expanding pops the front and appends the children one level down. */
  lemma ExpandPopPush(g: Graph, s: State)
    requires |s.queue| > 0
    ensures PopPush(s.queue, Expand(g, s.queue[0], s.visited, s.queue[1..]).1)
  {
  }

  /** The queue and reach parts of the invariant after an expanded entry. */
  lemma ExpandLevelQueue(g: Graph, types: map<Id, MaterialType>, q: Query, s: State, first: map<Id, QItem>)
    requires WellFormed(g)
    requires |s.queue| > 0 && !Drops(g, types, q, s.queue[0])
    requires LevelOrdered(s.queue) && QueueItemsOk(g, q, s.queue)
    requires FirstOk(g, q, first) && Behind(first, s.queue)
    requires Reached(s.queue, first, q.root, 0) && VisitedReached(first, s.queue, s.visited)
    requires FirstExpanded(g, types, q, first, s.visited)
    ensures var it := s.queue[0];
      var nx := Expand(g, it, s.visited, s.queue[1..]);
      var f := NextFirst(first, it);
      && LevelOrdered(nx.1) && QueueItemsOk(g, q, nx.1) && FirstOk(g, q, f) && Behind(f, nx.1)
      && Reached(nx.1, f, q.root, 0) && VisitedReached(f, nx.1, nx.0)
  {
    var it := s.queue[0];
    var nx := Expand(g, it, s.visited, s.queue[1..]);
    ExpandItemsOk(g, q, s);
    ExpandPopPush(g, s);
    LevelQueueStep(g, q, s, first, nx.1);
    ExpandNewReached(g, types, q, s, first);
  }

  /** An expanded entry records its first pop, visits its edges and queues their children. */
  lemma ExpandLevelCovers(g: Graph, types: map<Id, MaterialType>, info: map<Id, Info>, q: Query, s: State, first: map<Id, QItem>)
    requires WellFormed(g)
    requires |s.queue| > 0 && !Drops(g, types, q, s.queue[0])
    requires LevelCoverOk(g, types, q, s, first)
    ensures var it := s.queue[0];
      var nx := Expand(g, it, s.visited, s.queue[1..]);
      var out' := if Emits(g, q, it) then s.out + [MakeEntry(types, info, it)] else s.out;
      LevelCoverOk(g, types, q, State(nx.1, nx.0, out'), NextFirst(first, it))
  {
    ExpandLevelQueue(g, types, q, s, first);
    ExpandFirstExpanded(g, types, q, s, first);
    ExpandFirstRows(g, types, info, q, s, first);
  }

  /** One step of the traversal keeps the invariant, with the popped entry recorded. */
  lemma StepLevelCovers(g: Graph, types: map<Id, MaterialType>, info: map<Id, Info>, q: Query, s: State, first: map<Id, QItem>)
    requires WellFormed(g)
    requires |s.queue| > 0 && LevelCoverOk(g, types, q, s, first)
    ensures LevelCoverOk(g, types, q, Step(g, types, info, q, s), NextFirst(first, s.queue[0]))
  {
    if Drops(g, types, q, s.queue[0]) {
      DropLevelCovers(g, types, q, s, first);
      assert Step(g, types, info, q, s) == State(s.queue[1..], s.visited, s.out);
    } else {
      ExpandLevelCovers(g, types, info, q, s, first);
      var it := s.queue[0];
      var nx := Expand(g, it, s.visited, s.queue[1..]);
      var out' := if Emits(g, q, it) then s.out + [MakeEntry(types, info, it)] else s.out;
      assert Step(g, types, info, q, s) == State(nx.1, nx.0, out');
    }
  }

  /** Once the queue is empty, every reached material has been popped. */
  lemma EmptyQueueLevels(g: Graph, types: map<Id, MaterialType>, q: Query, s: State, first: map<Id, QItem>)
    requires |s.queue| == 0 && LevelCoverOk(g, types, q, s, first)
    ensures q.root in first && first[q.root].level <= 0
    ensures forall n, e :: n in first && !Drops(g, types, q, first[n]) && e in g.edges && e.parent == n ==>
      e.child in first && first[e.child].level <= first[n].level + 1
  {
    forall n, e | n in first && !Drops(g, types, q, first[n]) && e in g.edges && e.parent == n
      ensures e.child in first && first[e.child].level <= first[n].level + 1
    {
      assert (n, e.child) in s.visited;
    }
  }

  /**
   * The traversal ends with the first pop of every material it popped: the
   * root at level 0, and for a first pop that is not dropped, every child
   * popped at most one level further down and a row when it emits.
   */
  lemma {:induction false} BfsLevels(g: Graph, types: map<Id, MaterialType>, info: map<Id, Info>, q: Query, s: State, first: map<Id, QItem>)
    returns (done: map<Id, QItem>)
    requires WellFormed(g)
    requires s.visited <= EdgePairs(g)
    requires LevelCoverOk(g, types, q, s, first)
    ensures q.root in done && done[q.root].level <= 0
    ensures FirstOk(g, q, done)
    ensures forall n, e :: n in done && !Drops(g, types, q, done[n]) && e in g.edges && e.parent == n ==>
      e.child in done && done[e.child].level <= done[n].level + 1
    ensures FirstRows(g, types, q, done, Bfs(g, types, info, q, s))
    decreases |EdgePairs(g) - s.visited|, |s.queue|
  {
    if |s.queue| == 0 {
      done := first;
      EmptyQueueLevels(g, types, q, s, first);
    } else {
      StepLevelCovers(g, types, info, q, s, first);
      StepShrinks(g, types, info, q, s);
      done := BfsLevels(g, types, info, q, Step(g, types, info, q, s), NextFirst(first, s.queue[0]));
    }
  }

  /**
   * The nodes of a rooted path within the level limit are all first popped
   * no deeper than their position on the path.
   */
  lemma {:induction false} PathWithinLevels(g: Graph, types: map<Id, MaterialType>, q: Query, done: map<Id, QItem>,
                                            path: seq<Id>, i: int)
    requires q.levels.Some? && IsPath(g, path) && path[0] == q.root && |path| - 1 <= q.levels.value
    requires 0 <= i < |path|
    requires q.root in done && done[q.root].level <= 0
    requires forall n :: n in done ==> done[n].node == n
    requires forall n, e :: n in done && !Drops(g, types, q, done[n]) && e in g.edges && e.parent == n ==>
      e.child in done && done[e.child].level <= done[n].level + 1
    ensures path[i] in done && done[path[i]].level <= i
  {
    if i > 0 {
      PathWithinLevels(g, types, q, done, path, i - 1);
      var v := path[i - 1];
      assert HasEdge(g.edges, v, path[i]);
      var e :| e in g.edges && e.parent == v && e.child == path[i];
      NeighbourQueries(g, v, e.child, e.qty);
      assert (e.child, e.qty) in Children(g, v);
      assert !Emits(g, q, done[v]);
    }
  }

  /** An entry stands for a rooted path, so it is no shallower than the shortest one. */
  lemma NoShallowerThanShortest(g: Graph, root: Id, path: seq<Id>, x: QItem)
    requires ItemOk(g, root, x) && RootedPath(g, root, path, x.node)
    requires forall p :: RootedPath(g, root, p, x.node) ==> |path| <= |p|
    ensures |path| - 1 <= x.level
  {
    var p :| RootedPath(g, root, p, x.node) && |p| == x.level + 1 && PathQty(g, p) == Weight(x);
  }

  /** The invariant holds before the first step, with nothing popped. */
  lemma InitLevelCovers(g: Graph, types: map<Id, MaterialType>, q: Query)
    ensures LevelCoverOk(g, types, q, Init(q.root), map[])
  {
    var s := Init(q.root);
    var x := s.queue[0];
    assert RootedPath(g, q.root, [q.root], q.root);
    assert ItemOk(g, q.root, x);
    assert forall y :: y in s.queue ==> y == x;
    assert Reached(s.queue, map[], q.root, 0);
  }

  /** A first pop at the depth of the shortest path, at the limit or a leaf, is appended. */
  lemma FirstPopEmits(g: Graph, types: map<Id, MaterialType>, q: Query, path: seq<Id>, x: QItem)
    requires q.levels.Some? && x.node != q.root
    requires x.level == |path| - 1 <= q.levels.value
    requires |path| - 1 == q.levels.value || |Children(g, x.node)| == 0
    requires q.filter.Some? ==> TypeOf(types, x.node) == q.filter.value
    ensures !Drops(g, types, q, x) && Emits(g, q, x)
  {
  }

  /** The traversal from the root appends a row for such a material. */
  lemma LevelsHasRow(g: Graph, types: map<Id, MaterialType>, info: map<Id, Info>, q: Query, path: seq<Id>, c: Id)
    requires WellFormed(g) && q.levels.Some?
    requires RootedPath(g, q.root, path, c)
    requires forall p :: RootedPath(g, q.root, p, c) ==> |path| <= |p|
    requires c != q.root && |path| - 1 <= q.levels.value
    requires |path| - 1 == q.levels.value || |Children(g, c)| == 0
    requires q.filter.Some? ==> TypeOf(types, c) == q.filter.value
    ensures HasRow(ExplodeEntries(g, types, info, q), c)
  {
    InitLevelCovers(g, types, q);
    var done := BfsLevels(g, types, info, q, Init(q.root), map[]);
    PathWithinLevels(g, types, q, done, path, |path| - 1);
    NoShallowerThanShortest(g, q.root, path, done[c]);
    FirstPopEmits(g, types, q, path, done[c]);
  }

  /**
   * With a level limit L the explosion returns what sits at the limit, not
   * only leaves: a material below the root whose shortest path from the root
   * has at most L edges, that has no children or whose shortest path has
   * exactly L edges, and that passes the type filter is a component of the
   * result.
   */
  lemma ExplodeCompleteLevels(g: Graph, types: map<Id, MaterialType>, info: map<Id, Info>, q: Query, path: seq<Id>, c: Id)
    requires WellFormed(g)
    requires q.root in g.nodes && q.levels.Some?
    requires RootedPath(g, q.root, path, c)
    requires forall p :: RootedPath(g, q.root, p, c) ==> |path| <= |p|
    requires c != q.root && |path| - 1 <= q.levels.value
    requires |path| - 1 == q.levels.value || |Children(g, c)| == 0
    requires q.filter.Some? ==> TypeOf(types, c) == q.filter.value
    ensures ExplodeSpec(Some(g), types, info, q).Some?
    ensures c in ExplodeSpec(Some(g), types, info, q).value
  {
    LevelsHasRow(g, types, info, q, path, c);
    GroupKeys(ExplodeEntries(g, types, info, q));
  }

  // ---------------------------------------------------------------------
  // One path, one row

  /** The number of rows of es for component c. */
  function RowCount(es: seq<Entry>, c: Id): nat
  {
    if |es| == 0 then 0
    else RowCount(es[..|es| - 1], c) + (if es[|es| - 1].id == c then 1 else 0)
  }

  /** The number of queue entries for material c. */
  function QueueCount(queue: seq<QItem>, c: Id): nat
  {
    if |queue| == 0 then 0
    else (if queue[0].node == c then 1 else 0) + QueueCount(queue[1..], c)
  }

  lemma {:induction false} QueueCountSnoc(queue: seq<QItem>, x: QItem, c: Id)
    ensures QueueCount(queue + [x], c) == QueueCount(queue, c) + (if x.node == c then 1 else 0)
  {
    if |queue| > 0 {
      assert (queue + [x])[1..] == queue[1..] + [x];
      QueueCountSnoc(queue[1..], x, c);
    }
  }

  lemma {:induction false} RowCountPositive(es: seq<Entry>, c: Id, i: int)
    requires 0 <= i < |es| && es[i].id == c
    ensures RowCount(es, c) >= 1
  {
    var n := |es| - 1;
    if i < n {
      assert es[..n][i] == es[i];
      RowCountPositive(es[..n], c, i);
    }
  }

  /** When c has exactly one row, its summed quantity is that row's. */
  lemma {:induction false} SingleRowTotal(es: seq<Entry>, c: Id, i: int)
    requires RowCount(es, c) == 1
    requires 0 <= i < |es| && es[i].id == c
    ensures SumTotal(es, c) == es[i].total
  {
    var n := |es| - 1;
    var init := es[..n];
    if es[n].id == c {
      forall j | 0 <= j < |init| ensures init[j].id != c {
        if init[j].id == c {
          RowCountPositive(init, c, j);
        }
      }
      SumTotalAbsent(init, c);
    } else {
      assert init[i] == es[i];
      SingleRowTotal(init, c, i);
    }
  }

  /** The edges a list of children stands for all leave cur and go to a listed child. */
  lemma {:induction false} ChildPairsMember(cur: Id, ch: seq<(Id, real)>, pr: (Id, Id))
    requires pr in ChildPairs(cur, ch)
    ensures pr.0 == cur && exists k :: 0 <= k < |ch| && ch[k].0 == pr.1
  {
    if pr != (cur, ch[0].0) {
      ChildPairsMember(cur, ch[1..], pr);
      var k :| 0 <= k < |ch[1..]| && ch[1..][k].0 == pr.1;
      assert ch[k + 1].0 == pr.1;
    }
  }

  /** Enqueueing adds one entry for c exactly when it newly visits the (cur, c) edge. */
  lemma {:induction false} EnqueueCount(cur: Id, level: int, mult: real, ch: seq<(Id, real)>,
                                        visited: set<(Id, Id)>, queue: seq<QItem>, c: Id)
    ensures var r := Enqueue(cur, level, mult, ch, visited, queue);
      QueueCount(r.1, c) == QueueCount(queue, c) + (if (cur, c) in r.0 && (cur, c) !in visited then 1 else 0)
    decreases |ch|
  {
    if |ch| > 0 {
      var c0 := ch[0].0;
      if (cur, c0) in visited {
        EnqueueCount(cur, level, mult, ch[1..], visited, queue, c);
      } else {
        var x := QItem(c0, ch[0].1, level + 1, mult);
        EnqueueCount(cur, level, mult, ch[1..], visited + {(cur, c0)}, queue + [x], c);
        QueueCountSnoc(queue, x, c);
      }
    }
  }

  /**
   * The invariant behind a component reached along one path only, whose
   * last edge is (pp, c): that is the only visited edge into c, and c has
   * one row or queue entry once it is visited and none before.
   */
  ghost predicate OnePathOk(s: State, c: Id, pp: Id)
  {
    && (forall pr :: pr in s.visited && pr.1 == c ==> pr.0 == pp)
    && RowCount(s.out, c) + QueueCount(s.queue, c) == (if (pp, c) in s.visited then 1 else 0)
  }

  /** c is a leaf below the root, of the filtered type, reached from the root along `path` only. */
  ghost predicate OnlyPath(g: Graph, types: map<Id, MaterialType>, q: Query, path: seq<Id>, c: Id)
  {
    && RootedPath(g, q.root, path, c)
    && Wanted(g, types, q, c)
    && forall p :: RootedPath(g, q.root, p, c) ==> p == path
  }

  /** A queued entry with an edge to c lies on the only path to c, just before c. */
  lemma OnlyParent(g: Graph, types: map<Id, MaterialType>, q: Query, path: seq<Id>, c: Id, it: QItem, qty: real)
    requires WellFormed(g) && OnlyPath(g, types, q, path, c)
    requires ItemOk(g, q.root, it)
    requires (c, qty) in Children(g, it.node)
    ensures |path| >= 2 && it.node == path[|path| - 2]
  {
    var p0 :| RootedPath(g, q.root, p0, it.node) && |p0| == it.level + 1 && PathQty(g, p0) == Weight(it);
    ChildQty(g, it.node, c, qty);
    ExtendPath(g, q.root, p0, it.node, c, qty);
    assert p0 + [c] == path;
    assert path[|path| - 2] == (p0 + [c])[|p0| - 1] == p0[|p0| - 1];
  }

  /** The edges an expansion newly visits into c leave the last node before c on its only path. */
  lemma ExpandOneParent(g: Graph, types: map<Id, MaterialType>, q: Query, it: QItem, visited: set<(Id, Id)>,
                        rest: seq<QItem>, path: seq<Id>, c: Id)
    requires WellFormed(g) && OnlyPath(g, types, q, path, c) && |path| >= 2
    requires ItemOk(g, q.root, it)
    requires forall pr :: pr in visited && pr.1 == c ==> pr.0 == path[|path| - 2]
    ensures var nx := Expand(g, it, visited, rest);
      forall pr :: pr in nx.0 && pr.1 == c ==> pr.0 == path[|path| - 2]
  {
    var ch := Children(g, it.node);
    var nx := Expand(g, it, visited, rest);
    forall pr | pr in nx.0 && pr.1 == c ensures pr.0 == path[|path| - 2] {
      if pr !in visited {
        ChildPairsMember(it.node, ch, pr);
        var k :| 0 <= k < |ch| && ch[k].0 == pr.1;
        assert (c, ch[k].1) in ch;
        OnlyParent(g, types, q, path, c, it, ch[k].1);
      }
    }
  }

  lemma RowCountSnoc(es: seq<Entry>, e: Entry, c: Id)
    ensures RowCount(es + [e], c) == RowCount(es, c) + (if e.id == c then 1 else 0)
  {
    assert (es + [e])[..|es|] == es;
  }

  /** The (pp, c) edge is newly visited by an expansion only as the expanded entry's own edge into c. */
  lemma ExpandNewEdge(g: Graph, it: QItem, visited: set<(Id, Id)>, rest: seq<QItem>, pp: Id, c: Id)
    ensures var nx := Expand(g, it, visited, rest);
      (pp, c) in nx.0 && (pp, c) !in visited ==> pp == it.node
  {
    var nx := Expand(g, it, visited, rest);
    if (pp, c) in nx.0 && (pp, c) !in visited {
      ChildPairsMember(it.node, Children(g, it.node), (pp, c));
    }
  }

  /** The row an expanded entry may append counts for c exactly when the entry is for c. */
  lemma EmitRowCount(g: Graph, types: map<Id, MaterialType>, info: map<Id, Info>, q: Query, it: QItem,
                     out: seq<Entry>, c: Id)
    requires q.levels.None? && Wanted(g, types, q, c)
    ensures var out' := if Emits(g, q, it) then out + [MakeEntry(types, info, it)] else out;
      RowCount(out', c) == RowCount(out, c) + (if it.node == c then 1 else 0)
  {
    if Emits(g, q, it) {
      RowCountSnoc(out, MakeEntry(types, info, it), c);
    }
  }

  /** A step that does not drop its entry expands it and appends its row if it emits. */
  lemma StepExpands(g: Graph, types: map<Id, MaterialType>, info: map<Id, Info>, q: Query, s: State)
    requires |s.queue| > 0 && !Drops(g, types, q, s.queue[0])
    ensures var it := s.queue[0];
      var nx := Expand(g, it, s.visited, s.queue[1..]);
      Step(g, types, info, q, s) == State(nx.1, nx.0, if Emits(g, q, it) then s.out + [MakeEntry(types, info, it)] else s.out)
  {
  }

  lemma ExpandOnePath(g: Graph, types: map<Id, MaterialType>, info: map<Id, Info>, q: Query, s: State,
                      path: seq<Id>, c: Id)
    requires WellFormed(g) && q.levels.None? && OnlyPath(g, types, q, path, c) && |path| >= 2
    requires |s.queue| > 0 && ItemOk(g, q.root, s.queue[0])
    requires !Drops(g, types, q, s.queue[0])
    requires OnePathOk(s, c, path[|path| - 2])
    ensures OnePathOk(Step(g, types, info, q, s), c, path[|path| - 2])
  {
    var it := s.queue[0];
    var rest := s.queue[1..];
    var pp := path[|path| - 2];
    var nx := Expand(g, it, s.visited, rest);
    var out' := if Emits(g, q, it) then s.out + [MakeEntry(types, info, it)] else s.out;
    StepExpands(g, types, info, q, s);
    EmitRowCount(g, types, info, q, it, s.out, c);
    EnqueueCount(it.node, it.level, Weight(it), Children(g, it.node), s.visited, rest, c);
    ExpandOneParent(g, types, q, it, s.visited, rest, path, c);
    ExpandNewEdge(g, it, s.visited, rest, pp, c);
    if it.node == c {
      assert nx == (s.visited, rest);
    }
  }

  lemma StepOnePath(g: Graph, types: map<Id, MaterialType>, info: map<Id, Info>, q: Query, s: State,
                    path: seq<Id>, c: Id)
    requires WellFormed(g) && q.levels.None? && OnlyPath(g, types, q, path, c) && |path| >= 2
    requires |s.queue| > 0 && ItemOk(g, q.root, s.queue[0])
    requires OnePathOk(s, c, path[|path| - 2])
    ensures OnePathOk(Step(g, types, info, q, s), c, path[|path| - 2])
  {
    var it := s.queue[0];
    if Drops(g, types, q, it) {
      assert s.queue == [it] + s.queue[1..];
      assert it.node != c;
    } else {
      ExpandOnePath(g, types, info, q, s, path, c);
    }
  }

  /** Without a level limit, a component reached along one path only gets at most that path's one row. */
  lemma {:induction false} BfsOnePath(g: Graph, types: map<Id, MaterialType>, info: map<Id, Info>, q: Query, s: State,
                                      path: seq<Id>, c: Id)
    requires WellFormed(g) && q.levels.None? && OnlyPath(g, types, q, path, c) && |path| >= 2
    requires s.visited <= EdgePairs(g)
    requires StateOk(g, types, info, q, s)
    requires OnePathOk(s, c, path[|path| - 2])
    ensures RowCount(Bfs(g, types, info, q, s), c) <= 1
    decreases |EdgePairs(g) - s.visited|, |s.queue|
  {
    if |s.queue| > 0 {
      assert s.queue[0] in s.queue;
      StepOnePath(g, types, info, q, s, path, c);
      StepSound(g, types, info, q, s);
      StepShrinks(g, types, info, q, s);
      BfsOnePath(g, types, info, q, Step(g, types, info, q, s), path, c);
    }
  }

  lemma OneRowAtMost(g: Graph, types: map<Id, MaterialType>, info: map<Id, Info>, q: Query, path: seq<Id>, c: Id)
    requires WellFormed(g) && q.levels.None? && OnlyPath(g, types, q, path, c)
    ensures RowCount(ExplodeEntries(g, types, info, q), c) <= 1
  {
    var s := Init(q.root);
    assert RootedPath(g, q.root, [q.root], q.root);
    assert ItemOk(g, q.root, QItem(q.root, 1.0, 0, 1.0));
    assert StateOk(g, types, info, q, s);
    assert s.queue == [s.queue[0]] + s.queue[1..];
    assert OnePathOk(s, c, path[|path| - 2]);
    BfsOnePath(g, types, info, q, s, path, c);
  }

  /**
   * Without a level limit, a leaf of the filtered type that is reached from
   * the root along one path only is a component whose quantity is the
   * product of the edge quantities on that path, at the level of its length.
   */
  lemma ExplodeOnePath(g: Graph, types: map<Id, MaterialType>, info: map<Id, Info>, q: Query, path: seq<Id>, c: Id)
    requires WellFormed(g) && q.root in g.nodes && q.levels.None?
    requires RootedPath(g, q.root, path, c)
    requires c != q.root && |Children(g, c)| == 0
    requires q.filter.Some? ==> TypeOf(types, c) == q.filter.value
    requires forall p :: RootedPath(g, q.root, p, c) ==> p == path
    ensures ExplodeSpec(Some(g), types, info, q).Some?
    ensures var m := ExplodeSpec(Some(g), types, info, q).value;
      c in m && m[c].total == PathQty(g, path) && m[c].level == |path| - 1
  {
    ExplodeComplete(g, types, info, q, path, c);
    var es := ExplodeEntries(g, types, info, q);
    var m := Group(es);
    OneRowAtMost(g, types, info, q, path, c);
    ExplodeEntriesOk(g, types, info, q);
    GroupTotal(es);
    GroupLevel(es);
    var i :| 0 <= i < |es| && es[i].id == c && m[c].level == es[i].level;
    RowCountPositive(es, c, i);
    SingleRowTotal(es, c, i);
    assert es[i] in es;
    var p :| RootedPath(g, q.root, p, c) && |p| == es[i].level + 1 && PathQty(g, p) == es[i].total;
  }

  // ---------------------------------------------------------------------
  // A worked explosion

  /** The BOM M001 <- R001 (5 per unit) and M001 <- C001 (3 per unit), as build_bom_graph adds it. */
  function ExampleGraph(): Graph
  {
    AddEdge(AddEdge(EmptyGraph, "M001", "R001", 5.0), "M001", "C001", 3.0)
  }

  function ExampleTypes(): map<Id, MaterialType>
  {
    map["M001" := Finished, "R001" := Raw, "C001" := Raw]
  }

  lemma ExampleGraphShape()
    ensures ExampleGraph() == Graph(["M001", "R001", "C001"], [Edge("M001", "R001", 5.0), Edge("M001", "C001", 3.0)])
  {
    assert AddEdge(EmptyGraph, "M001", "R001", 5.0) == Graph(["M001", "R001"], [Edge("M001", "R001", 5.0)]);
  }

  lemma ExampleChildren()
    ensures Children(ExampleGraph(), "M001") == [("R001", 5.0), ("C001", 3.0)]
    ensures Children(ExampleGraph(), "R001") == [] && Children(ExampleGraph(), "C001") == []
    ensures EdgePairs(ExampleGraph()) == {("M001", "R001"), ("M001", "C001")}
  {
    ExampleGraphShape();
  }

  lemma ExampleWellFormed()
    ensures WellFormed(ExampleGraph())
  {
    AddEdgeWellFormed(EmptyGraph, "M001", "R001", 5.0);
    AddEdgeWellFormed(AddEdge(EmptyGraph, "M001", "R001", 5.0), "M001", "C001", 3.0);
  }

  /** Every edge of the example leaves M001 for R001 or C001. */
  lemma ExampleEdge(p: Id, c: Id)
    requires HasEdge(ExampleGraph().edges, p, c)
    ensures p == "M001" && (c == "R001" || c == "C001")
  {
    ExampleGraphShape();
  }

  /** In the example every path from M001 to another material is one edge long and ends at R001 or C001. */
  lemma ExampleOnlyPath(path: seq<Id>, c: Id)
    requires RootedPath(ExampleGraph(), "M001", path, c) && c != "M001"
    ensures path == ["M001", c] && (c == "R001" || c == "C001")
  {
    var g := ExampleGraph();
    ExampleEdge(path[0], path[1]);
    assert path[1] != "M001" by {
      assert "R001"[0] != "M001"[0] && "C001"[0] != "M001"[0];
    }
    forall i | 0 <= i < |path| - 1 ensures path[i] == "M001" {
      ExampleEdge(path[i], path[i + 1]);
    }
    assert |path| == 2;
    assert path == [path[0], path[1]];
  }

  /** The one-edge path M001 -> c of a child of M001 has that edge's quantity. */
  lemma ExampleEdgePath(c: Id, qty: real)
    requires (c, qty) in Children(ExampleGraph(), "M001")
    ensures RootedPath(ExampleGraph(), "M001", ["M001", c], c)
    ensures PathQty(ExampleGraph(), ["M001", c]) == qty
  {
    var g := ExampleGraph();
    var path := ["M001", c];
    ExampleWellFormed();
    NeighbourQueries(g, "M001", c, qty);
    assert HasEdge(g.edges, "M001", c);
    ChildQty(g, "M001", c, qty);
    assert path[..1] == ["M001"];
  }

  /** A child of M001 in the example is a component of level 1 whose quantity is its edge's. */
  lemma ExampleLeaf(c: Id, qty: real, filter: Option<MaterialType>)
    requires filter.None? || filter == Some(Raw)
    requires (c, qty) in Children(ExampleGraph(), "M001")
    ensures var m := ExplodeSpec(Some(ExampleGraph()), ExampleTypes(), map[], Query("M001", None, filter));
      m.Some? && c in m.value && m.value[c] == Component(UnknownDescription, Raw, qty, 1)
  {
    var g := ExampleGraph();
    var types, info, q := ExampleTypes(), map[], Query("M001", None, filter);
    ExampleGraphShape();
    ExampleChildren();
    ExampleWellFormed();
    var path := ["M001", c];
    ExampleEdgePath(c, qty);
    forall p | RootedPath(g, q.root, p, c) ensures p == path {
      ExampleOnlyPath(p, c);
    }
    ExplodeOnePath(g, types, info, q, path, c);
    ExplodeSound(g, types, info, q);
    var m := ExplodeSpec(Some(g), types, info, q).value;
    assert ComponentOk(g, types, info, q, c, m[c]);
  }

  /** The example's explosion has no component besides R001 and C001. */
  lemma ExampleKeys(filter: Option<MaterialType>)
    ensures var m := ExplodeSpec(Some(ExampleGraph()), ExampleTypes(), map[], Query("M001", None, filter));
      m.Some? && forall c :: c in m.value ==> c == "R001" || c == "C001"
  {
    var g := ExampleGraph();
    var types, info, q := ExampleTypes(), map[], Query("M001", None, filter);
    ExampleWellFormed();
    ExampleGraphShape();
    ExplodeSound(g, types, info, q);
    var m := ExplodeSpec(Some(g), types, info, q).value;
    forall c | c in m ensures c == "R001" || c == "C001" {
      assert ComponentOk(g, types, info, q, c, m[c]);
      var path :| RootedPath(g, q.root, path, c) && |path| == m[c].level + 1;
      ExampleOnlyPath(path, c);
    }
  }

  /**
   * Exploding M001, unfiltered or for raw materials, gives R001 at 5 and
   * C001 at 3 per unit, both one level down, with the default description.
   */
  lemma ExampleExplosion(filter: Option<MaterialType>)
    requires filter.None? || filter == Some(Raw)
    ensures var m := ExplodeSpec(Some(ExampleGraph()), ExampleTypes(), map[], Query("M001", None, filter));
      && m.Some? && m.value.Keys == {"R001", "C001"}
      && m.value["R001"] == Component(UnknownDescription, Raw, 5.0, 1)
      && m.value["C001"] == Component(UnknownDescription, Raw, 3.0, 1)
  {
    ExampleChildren();
    assert ("R001", 5.0) in Children(ExampleGraph(), "M001");
    assert ("C001", 3.0) in Children(ExampleGraph(), "M001");
    ExampleLeaf("R001", 5.0, filter);
    ExampleLeaf("C001", 3.0, filter);
    ExampleKeys(filter);
    TwoKeys(ExplodeSpec(Some(ExampleGraph()), ExampleTypes(), map[], Query("M001", None, filter)).value, "R001", "C001");
  }

  lemma TwoKeys<V>(m: map<Id, V>, a: Id, b: Id)
    requires a in m && b in m
    requires forall c :: c in m ==> c == a || c == b
    ensures m.Keys == {a, b}
  {
  }

  /** explode_bom returns None exactly when the graph is not built or the root is not in it. */
  lemma ExplodeNone(graph: Option<Graph>, types: map<Id, MaterialType>, info: map<Id, Info>, q: Query)
    ensures ExplodeSpec(graph, types, info, q).None? <==> graph.None? || q.root !in graph.value.nodes
  {
  }

  /** The facts ExplodeSound states about one grouped component. */
  ghost predicate ComponentOk(g: Graph, types: map<Id, MaterialType>, info: map<Id, Info>, q: Query, c: Id, k: Component)
  {
    && c != q.root
    && k.mtype == TypeOf(types, c)
    && k.description == DescriptionOf(info, c)
    && (q.filter.Some? ==> k.mtype == q.filter.value)
    && 1 <= k.level
    && (q.levels.Some? ==> k.level <= q.levels.value)
    && exists path :: RootedPath(g, q.root, path, c) && |path| == k.level + 1
  }

  lemma GroupedComponentOk(g: Graph, types: map<Id, MaterialType>, info: map<Id, Info>, q: Query, es: seq<Entry>, c: Id)
    requires forall e :: e in es ==> EntryOk(g, types, info, q, e)
    requires c in Group(es)
    ensures ComponentOk(g, types, info, q, c, Group(es)[c])
  {
    GroupLevel(es);
    GroupFirst(es);
    var m := Group(es);
    var i :| FirstRow(es, c, i) && m[c].description == es[i].description && m[c].mtype == es[i].mtype;
    assert es[i] in es;
    assert EntryOk(g, types, info, q, es[i]);
    var k :| 0 <= k < |es| && es[k].id == c && m[c].level == es[k].level;
    assert es[k] in es;
    var e := es[k];
    assert EntryOk(g, types, info, q, e);
    var path :| RootedPath(g, q.root, path, e.id) && |path| == e.level + 1 && PathQty(g, path) == e.total;
    assert |path| >= 2;
  }

  /**
   * No component is the root; each carries its own type and description and
   * passes the type filter; its minimum level is at least 1 and at most
   * `levels`; and it is reached from the root by a path of that many edges.
   */
  lemma ExplodeSound(g: Graph, types: map<Id, MaterialType>, info: map<Id, Info>, q: Query)
    requires WellFormed(g)
    requires q.root in g.nodes
    ensures ExplodeSpec(Some(g), types, info, q).Some?
    ensures var m := ExplodeSpec(Some(g), types, info, q).value;
      && q.root !in m
      && forall c :: c in m ==> ComponentOk(g, types, info, q, c, m[c])
  {
    var es := ExplodeEntries(g, types, info, q);
    ExplodeEntriesOk(g, types, info, q);
    var m := Group(es);
    forall c | c in m
      ensures ComponentOk(g, types, info, q, c, m[c])
    {
      GroupedComponentOk(g, types, info, q, es, c);
    }
  }

  /**
   * The quantity of a component is the sum of its rows, and each row's
   * quantity is the product of the edge quantities along the path by which
   * the traversal reached it.
   */
  lemma ExplodeTotals(g: Graph, types: map<Id, MaterialType>, info: map<Id, Info>, q: Query)
    requires WellFormed(g)
    requires q.root in g.nodes
    ensures var es := ExplodeEntries(g, types, info, q);
      && ExplodeSpec(Some(g), types, info, q) == Some(Group(es))
      && (forall c :: c in Group(es) ==> Group(es)[c].total == SumTotal(es, c))
      && forall e :: e in es ==>
           e.id != q.root && exists path :: RootedPath(g, q.root, path, e.id) && |path| == e.level + 1 && PathQty(g, path) == e.total
  {
    var es := ExplodeEntries(g, types, info, q);
    ExplodeEntriesOk(g, types, info, q);
    GroupTotal(es);
  }
}
