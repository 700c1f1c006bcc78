/**
 * The BOM as a directed graph, as `build_bom_graph` builds it with a
 * networkx DiGraph (production_planning_system/models/bom_manager.py):
 * nodes and edges kept in first-insertion order, one edge per
 * (parent, child) pair, and re-adding a pair replaces its quantity in place.
 * Also the per-material attributes kept beside the graph (`material_info`),
 * the neighbour queries, paths and acyclicity.
 */
module BomGraph {
  import opened Common

  /** A BOM edge: one unit of `parent` consumes `qty` units of `child`. */
  datatype Edge = Edge(parent: Id, child: Id, qty: real)

  datatype Graph = Graph(nodes: seq<Id>, edges: seq<Edge>)

  /** What `material_info` keeps per material: description and type, each if ever given. */
  datatype Info = Info(description: Option<string>, mtype: Option<MaterialType>)

  const NoInfo := Info(None, None)

  const EmptyGraph := Graph([], [])

  predicate HasEdge(es: seq<Edge>, p: Id, c: Id)
  {
    exists e :: e in es && e.parent == p && e.child == c
  }

  ghost predicate WellFormed(g: Graph)
  {
    && (forall i, j :: 0 <= i < j < |g.nodes| ==> g.nodes[i] != g.nodes[j])
    && (forall i, j :: 0 <= i < j < |g.edges| ==>
          g.edges[i].parent != g.edges[j].parent || g.edges[i].child != g.edges[j].child)
    && (forall e :: e in g.edges ==> e.parent in g.nodes && e.child in g.nodes)
  }

  /** G.add_node(n): a node already present keeps its place. */
  function AddNode(g: Graph, n: Id): Graph
  {
    if n in g.nodes then g else g.(nodes := g.nodes + [n])
  }

  /** The edge list after G.add_edge(p, c, quantity=q). */
  function UpsertEdge(es: seq<Edge>, p: Id, c: Id, q: real): seq<Edge>
  {
    if |es| == 0 then [Edge(p, c, q)]
    else if es[0].parent == p && es[0].child == c then [Edge(p, c, q)] + es[1..]
    else [es[0]] + UpsertEdge(es[1..], p, c, q)
  }

  /** G.add_node(p); G.add_node(c); G.add_edge(p, c, quantity=q). */
  function AddEdge(g: Graph, p: Id, c: Id, q: real): Graph
  {
    var g1 := AddNode(AddNode(g, p), c);
    g1.(edges := UpsertEdge(g1.edges, p, c, q))
  }

  /** The quantity of the (p, c) edge, if there is one. */
  function EdgeQty(es: seq<Edge>, p: Id, c: Id): Option<real>
  {
    if |es| == 0 then None
    else if es[0].parent == p && es[0].child == c then Some(es[0].qty)
    else EdgeQty(es[1..], p, c)
  }

  lemma {:induction false} EdgeQtyPresent(es: seq<Edge>, p: Id, c: Id)
    ensures EdgeQty(es, p, c).Some? <==> HasEdge(es, p, c)
  {
    if |es| > 0 {
      EdgeQtyPresent(es[1..], p, c);
      assert forall e :: e in es <==> e == es[0] || e in es[1..];
    }
  }

  /** In a well-formed edge list the lookup finds the one edge of that pair. */
  lemma {:induction false} EdgeQtyOfMember(es: seq<Edge>, k: int)
    requires 0 <= k < |es|
    requires forall i, j :: 0 <= i < j < |es| ==> es[i].parent != es[j].parent || es[i].child != es[j].child
    ensures EdgeQty(es, es[k].parent, es[k].child) == Some(es[k].qty)
  {
    if k > 0 {
      EdgeQtyOfMember(es[1..], k - 1);
    }
  }

  /** Adding an edge stores its quantity, replacing (not adding to) an earlier one. */
  lemma {:induction false} UpsertOverwrites(es: seq<Edge>, p: Id, c: Id, q: real, p': Id, c': Id)
    ensures EdgeQty(UpsertEdge(es, p, c, q), p', c') ==
      if p' == p && c' == c then Some(q) else EdgeQty(es, p', c')
  {
    if |es| > 0 && !(es[0].parent == p && es[0].child == c) {
      UpsertOverwrites(es[1..], p, c, q, p', c');
    }
  }

  /** Re-adding a pair keeps the number and places of the edges; a new pair is appended. */
  lemma {:induction false} UpsertShape(es: seq<Edge>, p: Id, c: Id, q: real)
    ensures HasEdge(es, p, c) ==> |UpsertEdge(es, p, c, q)| == |es|
    ensures !HasEdge(es, p, c) ==> UpsertEdge(es, p, c, q) == es + [Edge(p, c, q)]
    ensures forall i :: 0 <= i < |es| && !(es[i].parent == p && es[i].child == c) ==>
      i < |UpsertEdge(es, p, c, q)| && UpsertEdge(es, p, c, q)[i] == es[i]
    ensures forall e :: e in UpsertEdge(es, p, c, q) ==> e in es || e == Edge(p, c, q)
    ensures Edge(p, c, q) in UpsertEdge(es, p, c, q)
  {
    if |es| > 0 {
      UpsertShape(es[1..], p, c, q);
      assert forall e :: e in es <==> e == es[0] || e in es[1..];
      if !(es[0].parent == p && es[0].child == c) {
        var r := UpsertEdge(es, p, c, q);
        assert r == [es[0]] + UpsertEdge(es[1..], p, c, q);
        forall i | 0 <= i < |es| && !(es[i].parent == p && es[i].child == c)
          ensures i < |r| && r[i] == es[i]
        {
          if i > 0 {
            assert es[1..][i - 1] == es[i];
          }
        }
      }
    }
  }

  lemma {:induction false} UpsertWellFormed(es: seq<Edge>, p: Id, c: Id, q: real)
    requires forall i, j :: 0 <= i < j < |es| ==> es[i].parent != es[j].parent || es[i].child != es[j].child
    ensures var r := UpsertEdge(es, p, c, q);
      forall i, j :: 0 <= i < j < |r| ==> r[i].parent != r[j].parent || r[i].child != r[j].child
  {
    if |es| > 0 {
      TailDistinct(es);
      HeadDiffers(es);
      if es[0].parent == p && es[0].child == c {
        ConsDistinct(Edge(p, c, q), es[1..]);
      } else {
        UpsertWellFormed(es[1..], p, c, q);
        UpsertShape(es[1..], p, c, q);
        ConsDistinct(es[0], UpsertEdge(es[1..], p, c, q));
      }
    }
  }

  lemma TailDistinct(es: seq<Edge>)
    requires |es| > 0
    requires forall i, j :: 0 <= i < j < |es| ==> es[i].parent != es[j].parent || es[i].child != es[j].child
    ensures var t := es[1..];
      forall i, j :: 0 <= i < j < |t| ==> t[i].parent != t[j].parent || t[i].child != t[j].child
  {
    var t := es[1..];
    forall i, j | 0 <= i < j < |t| ensures t[i].parent != t[j].parent || t[i].child != t[j].child {
      assert t[i] == es[i + 1] && t[j] == es[j + 1];
    }
  }

  lemma HeadDiffers(es: seq<Edge>)
    requires |es| > 0
    requires forall i, j :: 0 <= i < j < |es| ==> es[i].parent != es[j].parent || es[i].child != es[j].child
    ensures forall e :: e in es[1..] ==> es[0].parent != e.parent || es[0].child != e.child
  {
    forall e | e in es[1..] ensures es[0].parent != e.parent || es[0].child != e.child {
      var k :| 0 <= k < |es[1..]| && es[1..][k] == e;
      assert es[k + 1] == e;
    }
  }

  /** An edge list stays free of repeated pairs when the new head's pair is not among the rest. */
  lemma ConsDistinct(x: Edge, t: seq<Edge>)
    requires forall i, j :: 0 <= i < j < |t| ==> t[i].parent != t[j].parent || t[i].child != t[j].child
    requires forall e :: e in t ==> x.parent != e.parent || x.child != e.child
    ensures var r := [x] + t;
      forall i, j :: 0 <= i < j < |r| ==> r[i].parent != r[j].parent || r[i].child != r[j].child
  {
    var r := [x] + t;
    forall i, j | 0 <= i < j < |r| ensures r[i].parent != r[j].parent || r[i].child != r[j].child {
      assert r[j] == t[j - 1];
      if i == 0 {
        assert t[j - 1] in t;
      } else {
        assert r[i] == t[i - 1];
      }
    }
  }

  lemma AddEdgeWellFormed(g: Graph, p: Id, c: Id, q: real)
    requires WellFormed(g)
    ensures WellFormed(AddEdge(g, p, c, q))
  {
    var g1 := AddNode(AddNode(g, p), c);
    UpsertWellFormed(g1.edges, p, c, q);
    UpsertShape(g1.edges, p, c, q);
    assert forall n :: n in g.nodes ==> n in g1.nodes;
  }

  /** `get_material_children`: the (child, quantity) pairs of the out-edges, in edge order. */
  function Children(g: Graph, n: Id): seq<(Id, real)>
  {
    ChildrenIn(g.edges, n)
  }

  function ChildrenIn(es: seq<Edge>, n: Id): seq<(Id, real)>
  {
    if |es| == 0 then []
    else
      var rest := ChildrenIn(es[1..], n);
      if es[0].parent == n then [(es[0].child, es[0].qty)] + rest else rest
  }

  /** `get_material_parents`: the (parent, quantity) pairs of the in-edges, in edge order. */
  function Parents(g: Graph, n: Id): seq<(Id, real)>
  {
    ParentsIn(g.edges, n)
  }

  function ParentsIn(es: seq<Edge>, n: Id): seq<(Id, real)>
  {
    if |es| == 0 then []
    else
      var rest := ParentsIn(es[1..], n);
      if es[0].child == n then [(es[0].parent, es[0].qty)] + rest else rest
  }

  lemma {:induction false} ChildrenInEdges(es: seq<Edge>, n: Id, c: Id, q: real)
    ensures (c, q) in ChildrenIn(es, n) <==> Edge(n, c, q) in es
  {
    if |es| > 0 {
      ChildrenInEdges(es[1..], n, c, q);
      assert es == [es[0]] + es[1..];
    }
  }

  lemma {:induction false} ParentsInEdges(es: seq<Edge>, n: Id, p: Id, q: real)
    ensures (p, q) in ParentsIn(es, n) <==> Edge(p, n, q) in es
  {
    if |es| > 0 {
      ParentsInEdges(es[1..], n, p, q);
      assert es == [es[0]] + es[1..];
    }
  }

  /** The neighbour queries see exactly the graph's edges, in both directions. */
  lemma NeighbourQueries(g: Graph, p: Id, c: Id, q: real)
    ensures (c, q) in Children(g, p) <==> Edge(p, c, q) in g.edges
    ensures (p, q) in Parents(g, c) <==> Edge(p, c, q) in g.edges
  {
    ChildrenInEdges(g.edges, p, c, q);
    ParentsInEdges(g.edges, c, p, q);
  }

  /** The children and parents of a node are exactly its out- and in-edges. */
  lemma NeighboursExactly(g: Graph, n: Id)
    ensures forall c, q :: (c, q) in Children(g, n) <==> Edge(n, c, q) in g.edges
    ensures forall p, q :: (p, q) in Parents(g, n) <==> Edge(p, n, q) in g.edges
  {
    forall c, q ensures (c, q) in Children(g, n) <==> Edge(n, c, q) in g.edges {
      NeighbourQueries(g, n, c, q);
    }
    forall p, q ensures (p, q) in Parents(g, n) <==> Edge(p, n, q) in g.edges {
      NeighbourQueries(g, p, n, q);
    }
  }

  /** A node has no children exactly when no edge leaves it. */
  lemma {:induction false} ChildrenInEmpty(es: seq<Edge>, n: Id)
    ensures |ChildrenIn(es, n)| == 0 <==> forall k :: 0 <= k < |es| ==> es[k].parent != n
  {
    if |es| > 0 {
      ChildrenInEmpty(es[1..], n);
      assert forall k :: 0 <= k < |es[1..]| ==> es[1..][k] == es[k + 1];
    }
  }

  /** A node has no parents exactly when no edge enters it. */
  lemma {:induction false} ParentsInEmpty(es: seq<Edge>, n: Id)
    ensures |ParentsIn(es, n)| == 0 <==> forall k :: 0 <= k < |es| ==> es[k].child != n
  {
    if |es| > 0 {
      ParentsInEmpty(es[1..], n);
      assert forall k :: 0 <= k < |es[1..]| ==> es[1..][k] == es[k + 1];
    }
  }

  /** In a well-formed graph a material that is not a node has no neighbours. */
  lemma AbsentNodeIsIsolated(g: Graph, n: Id)
    requires WellFormed(g)
    requires n !in g.nodes
    ensures Children(g, n) == [] && Parents(g, n) == []
  {
    ChildrenInEmpty(g.edges, n);
    ParentsInEmpty(g.edges, n);
    assert forall k :: 0 <= k < |g.edges| ==> g.edges[k] in g.edges;
  }

  function OutDegree(g: Graph, n: Id): nat
  {
    |Children(g, n)|
  }

  function InDegree(g: Graph, n: Id): nat
  {
    |Parents(g, n)|
  }

  /** `get_material_type`: the stored type, or Unknown. */
  function TypeOf(types: map<Id, MaterialType>, n: Id): MaterialType
  {
    GetOr(types, n, Unknown)
  }

  /** The description stored in `material_info`, or "未知". */
  function DescriptionOf(info: map<Id, Info>, n: Id): string
  {
    if n in info && info[n].description.Some? then info[n].description.value else UnknownDescription
  }

  /** A sequence of nodes each joined to the next by an edge. */
  ghost predicate IsPath(g: Graph, path: seq<Id>)
  {
    |path| >= 1 && forall i :: 0 <= i < |path| - 1 ==> HasEdge(g.edges, path[i], path[i + 1])
  }

  /** The graph has no cycle: no path of one or more edges returns to its start. */
  ghost predicate Acyclic(g: Graph)
  {
    forall path :: IsPath(g, path) && |path| >= 2 ==> path[0] != path[|path| - 1]
  }

  /** The product of the edge quantities along a path. */
  ghost function PathQty(g: Graph, path: seq<Id>): real
    requires IsPath(g, path)
    decreases |path|
  {
    if |path| == 1 then 1.0
    else
      var n := |path|;
      assert IsPath(g, path[..n - 1]);
      EdgeQtyPresent(g.edges, path[n - 2], path[n - 1]);
      PathQty(g, path[..n - 1]) * EdgeQty(g.edges, path[n - 2], path[n - 1]).value
  }

  /** A path that starts at `root` and ends at `n`. */
  ghost predicate RootedPath(g: Graph, root: Id, path: seq<Id>, n: Id)
  {
    IsPath(g, path) && path[0] == root && path[|path| - 1] == n
  }

  /** In a well-formed graph a child's listed quantity is its edge's quantity. */
  lemma ChildQty(g: Graph, n: Id, c: Id, q: real)
    requires WellFormed(g)
    requires (c, q) in Children(g, n)
    ensures EdgeQty(g.edges, n, c) == Some(q)
  {
    NeighbourQueries(g, n, c, q);
    var k :| 0 <= k < |g.edges| && g.edges[k] == Edge(n, c, q);
    EdgeQtyOfMember(g.edges, k);
  }

  /** Extending a rooted path by one edge multiplies its quantity by the edge's. */
  lemma ExtendPath(g: Graph, root: Id, path: seq<Id>, n: Id, c: Id, q: real)
    requires RootedPath(g, root, path, n)
    requires EdgeQty(g.edges, n, c) == Some(q)
    ensures RootedPath(g, root, path + [c], c)
    ensures PathQty(g, path + [c]) == PathQty(g, path) * q
  {
    EdgeQtyPresent(g.edges, n, c);
    var p' := path + [c];
    forall i | 0 <= i < |p'| - 1 ensures HasEdge(g.edges, p'[i], p'[i + 1]) {
      if i < |path| - 1 {
        assert p'[i] == path[i] && p'[i + 1] == path[i + 1];
      } else {
        assert p'[i] == n && p'[i + 1] == c;
      }
    }
    assert IsPath(g, p');
    assert p'[..|p'| - 1] == path;
    assert p'[|p'| - 2] == n && p'[|p'| - 1] == c;
  }

  /**
   * Two edges A->B and B->A (A != B) form a
   * cycle, so the BOM is not acyclic.
   */
  lemma TwoCycleIsRejected(a: Id, b: Id, qab: real, qba: real)
    requires a != b
    ensures !Acyclic(AddEdge(AddEdge(EmptyGraph, a, b, qab), b, a, qba))
  {
    var g := AddEdge(AddEdge(EmptyGraph, a, b, qab), b, a, qba);
    var g1 := AddEdge(EmptyGraph, a, b, qab);
    assert g1.edges == [Edge(a, b, qab)];
    assert UpsertEdge(g1.edges, b, a, qba) == [Edge(a, b, qab)] + UpsertEdge([], b, a, qba);
    assert g.edges == [Edge(a, b, qab), Edge(b, a, qba)];
    assert HasEdge(g.edges, a, b) by { assert Edge(a, b, qab) in g.edges; }
    assert HasEdge(g.edges, b, a) by { assert Edge(b, a, qba) in g.edges; }
    var path := [a, b, a];
    assert IsPath(g, path);
  }
}
