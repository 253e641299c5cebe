/**
 * The part of a networkx `DiGraph` the generator uses: a node set and a
 * deduplicated edge set, with add node, add edge, remove nodes, isolates and
 * disjoint union; and the shape every generated network keeps.
 */
module Graphs {

  type Node = string
  type Edge = (Node, Node)

  /** Every edge joins two nodes of the graph. */
  ghost predicate WellFormed(nodes: set<Node>, edges: set<Edge>) {
    forall e | e in edges :: e.0 in nodes && e.1 in nodes
  }

  /** No edge (u, u). */
  ghost predicate Loopless(edges: set<Edge>) {
    forall e | e in edges :: e.0 != e.1
  }

  /** No edge leaves a business: businesses are pure sinks. */
  ghost predicate Sinks(edges: set<Edge>, businesses: set<Node>) {
    forall e | e in edges :: e.0 !in businesses
  }

  /** Every edge that does not end at a business has its reverse. */
  ghost predicate ReciprocalOutside(edges: set<Edge>, businesses: set<Node>) {
    forall u, v | (u, v) in edges && v !in businesses :: (v, u) in edges
  }

  /**
   * The shape of every tier: no self-loop, businesses are sinks, and all
   * links between individuals go both ways.
   */
  ghost predicate Layered(nodes: set<Node>, edges: set<Edge>, businesses: set<Node>) {
    && businesses <= nodes
    && WellFormed(nodes, edges)
    && Loopless(edges)
    && Sinks(edges, businesses)
    && ReciprocalOutside(edges, businesses)
  }

  /** Node `n` has an incident edge, in or out. */
  predicate Touches(edges: set<Edge>, n: Node) {
    exists e | e in edges :: e.0 == n || e.1 == n
  }

  /** `nx.isolates`: the nodes of degree zero. */
  function Isolated(nodes: set<Node>, edges: set<Edge>): set<Node> {
    set n | n in nodes && !Touches(edges, n)
  }

  /** The edges that survive `remove_nodes_from(gone)`. */
  function EdgesAvoiding(edges: set<Edge>, gone: set<Node>): set<Edge> {
    set e | e in edges && e.0 !in gone && e.1 !in gone
  }

  /**
   * Removing the isolates keeps every edge, every node that has an edge, and
   * leaves no isolate behind.
   */
  lemma PrunedGraph(nodes: set<Node>, edges: set<Edge>)
    requires WellFormed(nodes, edges)
    ensures EdgesAvoiding(edges, Isolated(nodes, edges)) == edges
    ensures forall n | n in nodes - Isolated(nodes, edges) :: Touches(edges, n)
    ensures forall n | n in nodes && Touches(edges, n) :: n in nodes - Isolated(nodes, edges)
    ensures Isolated(nodes - Isolated(nodes, edges), edges) == {}
  {
    var gone := Isolated(nodes, edges);
    forall e | e in edges ensures e.0 !in gone && e.1 !in gone {
      assert Touches(edges, e.0) && Touches(edges, e.1);
    }
  }

  /** Union of two node-disjoint layered graphs is layered. */
  lemma UnionKeepsLayered(n1: set<Node>, e1: set<Edge>, b1: set<Node>,
                          n2: set<Node>, e2: set<Edge>, b2: set<Node>)
    requires Layered(n1, e1, b1) && Layered(n2, e2, b2)
    requires n1 !! n2
    ensures Layered(n1 + n2, e1 + e2, b1 + b2)
  {
    forall u, v | (u, v) in e1 + e2 && v !in b1 + b2 ensures (v, u) in e1 + e2 {
      if (u, v) in e1 { assert (v, u) in e1; } else { assert (v, u) in e2; }
    }
  }

  /** A networkx `DiGraph`, mutated in place by the generator. */
  class DiGraph {
    var nodes: set<Node>
    var edges: set<Edge>

    /** networkx keeps both endpoints of every edge among the nodes. */
    ghost predicate Valid()
      reads this
    {
      WellFormed(nodes, edges)
    }

    /** `nx.DiGraph()`: the empty graph. */
    constructor ()
      ensures Valid() && nodes == {} && edges == {}
    {
      nodes := {};
      edges := {};
    }

    /** `add_node`: adding a present node changes nothing. */
    method AddNode(n: Node)
      requires Valid()
      modifies this
      ensures Valid()
      ensures nodes == old(nodes) + {n} && edges == old(edges)
    {
      nodes := nodes + {n};
    }

    /** `add_edge`: adds missing endpoints too; a present edge is not duplicated. */
    method AddEdge(u: Node, v: Node)
      requires Valid()
      modifies this
      ensures Valid()
      ensures nodes == old(nodes) + {u, v} && edges == old(edges) + {(u, v)}
    {
      nodes := nodes + {u, v};
      edges := edges + {(u, v)};
    }

    /** `remove_nodes_from`: drops the nodes and every edge incident to them. */
    method RemoveNodesFrom(gone: set<Node>)
      requires Valid()
      modifies this
      ensures Valid()
      ensures nodes == old(nodes) - gone
      ensures edges == EdgesAvoiding(old(edges), gone)
    {
      nodes := nodes - gone;
      edges := EdgesAvoiding(edges, gone);
    }

    /** `remove_nodes_from(list(nx.isolates(self)))`: prune the nodes of degree zero. */
    method RemoveIsolates()
      requires Valid()
      modifies this
      ensures Valid()
      ensures nodes == old(nodes) - Isolated(old(nodes), old(edges))
      ensures edges == old(edges)
      ensures Isolated(nodes, edges) == {}
    {
      PrunedGraph(nodes, edges);
      RemoveNodesFrom(Isolates());
    }

    /** `nx.isolates(self)`: the nodes with no edge in or out. */
    function Isolates(): (iso: set<Node>)
      reads this
      ensures iso <= nodes
      ensures forall n | n in nodes :: n in iso <==> !Touches(edges, n)
    {
      Isolated(nodes, edges)
    }

    /** `nx.union(g, h)`: a new graph holding both; networkx refuses shared nodes. */
    static method Union(g: DiGraph, h: DiGraph) returns (r: DiGraph)
      requires g.Valid() && h.Valid()
      requires g.nodes !! h.nodes
      ensures fresh(r) && r.Valid()
      ensures r.nodes == g.nodes + h.nodes && r.edges == g.edges + h.edges
    {
      r := new DiGraph();
      r.nodes := g.nodes + h.nodes;
      r.edges := g.edges + h.edges;
    }
  }

  /** A subset is no larger than its superset. */
  lemma {:induction false} SubsetSize(a: set<Node>, b: set<Node>)
    requires a <= b
    ensures |a| <= |b|
    decreases b
  {
    if a != {} {
      var x :| x in a;
      SubsetSize(a - {x}, b - {x});
    }
  }

  /** A value snapshot of one constituent network when it was unioned in. */
  datatype Part = Part(nodes: set<Node>, edges: set<Edge>, businesses: set<Node>)

  function NodesOf(parts: seq<Part>): set<Node> {
    if parts == [] then {} else NodesOf(parts[..|parts| - 1]) + parts[|parts| - 1].nodes
  }

  function EdgesOf(parts: seq<Part>): set<Edge> {
    if parts == [] then {} else EdgesOf(parts[..|parts| - 1]) + parts[|parts| - 1].edges
  }

  function BusinessesOf(parts: seq<Part>): set<Node> {
    if parts == [] then {} else BusinessesOf(parts[..|parts| - 1]) + parts[|parts| - 1].businesses
  }

  /** No node belongs to two parts. */
  ghost predicate PairwiseDisjoint(parts: seq<Part>) {
    forall i, j | 0 <= i < j < |parts| :: parts[i].nodes !! parts[j].nodes
  }

  /**
   * `nx.union` succeeded at every step: each part shares no node with the
   * parts unioned before it.
   */
  ghost predicate Disjoint(parts: seq<Part>) {
    parts == [] ||
    (Disjoint(parts[..|parts| - 1]) && parts[|parts| - 1].nodes !! NodesOf(parts[..|parts| - 1]))
  }

  lemma DisjointAppend(parts: seq<Part>, p: Part)
    requires Disjoint(parts) && p.nodes !! NodesOf(parts)
    ensures Disjoint(parts + [p])
  {
    assert (parts + [p])[..|parts|] == parts;
  }

  /** The nodes of one part are among the nodes of all. */
  lemma {:induction false} NodesOfCovers(parts: seq<Part>, i: nat)
    requires i < |parts|
    ensures parts[i].nodes <= NodesOf(parts)
  {
    if i < |parts| - 1 {
      NodesOfCovers(parts[..|parts| - 1], i);
    }
  }

  /** Step-wise disjointness is disjointness of every two parts. */
  lemma {:induction false} DisjointPairwise(parts: seq<Part>)
    requires Disjoint(parts)
    ensures PairwiseDisjoint(parts)
  {
    if parts != [] {
      var init := parts[..|parts| - 1];
      DisjointPairwise(init);
      forall i, j | 0 <= i < j < |parts| ensures parts[i].nodes !! parts[j].nodes {
        if j < |parts| - 1 {
          assert parts[i] == init[i] && parts[j] == init[j];
        } else {
          NodesOfCovers(init, i);
        }
      }
    }
  }

  lemma PartsAppend(parts: seq<Part>, p: Part)
    ensures NodesOf(parts + [p]) == NodesOf(parts) + p.nodes
    ensures EdgesOf(parts + [p]) == EdgesOf(parts) + p.edges
    ensures BusinessesOf(parts + [p]) == BusinessesOf(parts) + p.businesses
  {
    assert (parts + [p])[..|parts|] == parts;
  }

  /** A business set of one part is contained in the union of all. */
  lemma {:induction false} BusinessesOfCovers(parts: seq<Part>, i: nat)
    requires i < |parts|
    ensures parts[i].businesses <= BusinessesOf(parts)
  {
    if i < |parts| - 1 {
      BusinessesOfCovers(parts[..|parts| - 1], i);
    }
  }
}
