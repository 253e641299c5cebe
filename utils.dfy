/**
 * `add_random_connections_to_network`: the random linker every tier uses to
 * add reciprocal edges between eligible nodes.
 */
module Utils {
  import opened Graphs
  import opened Outcomes
  import opened Sampling

  /** The candidate pool: the graph's nodes minus the exclusions; `None` excludes nothing. */
  function EligiblePool(nodes: set<Node>, exclude: Option<set<Node>>): (pool: set<Node>)
    ensures pool <= nodes
    ensures exclude.None? ==> pool == nodes
    ensures exclude.Some? ==> pool !! exclude.value && forall n | n in nodes && n !in exclude.value :: n in pool
  {
    nodes - (if exclude.None? then {} else exclude.value)
  }

  function Reverse(e: Edge): Edge {
    (e.1, e.0)
  }

  /** The edges that the realised draws `links` add: each pair in both directions. */
  function Both(links: seq<Edge>): set<Edge> {
    if links == [] then {}
    else Both(links[..|links| - 1]) + {links[|links| - 1], Reverse(links[|links| - 1])}
  }

  /** Every realised draw joins two different nodes of `pool`. */
  ghost predicate Drawn(links: seq<Edge>, pool: set<Node>) {
    forall i | 0 <= i < |links| :: links[i].0 in pool && links[i].1 in pool && links[i].0 != links[i].1
  }

  lemma DrawnAppend(links: seq<Edge>, l: Edge, pool: set<Node>)
    requires Drawn(links, pool) && l.0 in pool && l.1 in pool && l.0 != l.1
    ensures Drawn(links + [l], pool)
  {
  }

  /** Nodes that some realised draw touches. */
  ghost function Endpoints(links: seq<Edge>): set<Node> {
    (set l | l in links :: l.0) + (set l | l in links :: l.1)
  }

  /** Draws from any pool are also draws from their own endpoints. */
  lemma DrawnWithinEndpoints(links: seq<Edge>, pool: set<Node>)
    requires Drawn(links, pool)
    ensures Drawn(links, Endpoints(links))
  {
    forall i | 0 <= i < |links| ensures links[i].0 in Endpoints(links) && links[i].1 in Endpoints(links) {
      assert links[i] in links;
    }
  }

  /** Draws from a pool only touch the pool. */
  lemma EndpointsWithin(links: seq<Edge>, pool: set<Node>)
    requires Drawn(links, pool)
    ensures Endpoints(links) <= pool
  {
  }

  lemma BothAppend(links: seq<Edge>, l: Edge)
    ensures Both(links + [l]) == Both(links) + {l, Reverse(l)}
  {
    assert (links + [l])[..|links|] == links;
  }

  /** An edge is added exactly when it is a draw or the reverse of one. */
  lemma {:induction false} BothMembers(links: seq<Edge>, e: Edge)
    ensures e in Both(links) <==> exists i | 0 <= i < |links| :: e == links[i] || e == Reverse(links[i])
  {
    if links != [] {
      var init := links[..|links| - 1];
      BothMembers(init, e);
      if e in Both(init) {
        var i :| 0 <= i < |init| && (e == init[i] || e == Reverse(init[i]));
        assert links[i] == init[i];
      }
      forall i | 0 <= i < |init| ensures links[i] == init[i] { }
    }
  }

  /** The added edges are symmetric, and loop-free when the draws are. */
  lemma BothSymmetric(links: seq<Edge>, pool: set<Node>)
    requires Drawn(links, pool)
    ensures forall u, v | (u, v) in Both(links) :: (v, u) in Both(links)
    ensures forall e | e in Both(links) :: e.0 != e.1 && e.0 in pool && e.1 in pool
  {
    forall e | e in Both(links) ensures e.0 != e.1 && e.0 in pool && e.1 in pool {
      BothMembers(links, e);
      var i :| 0 <= i < |links| && (e == links[i] || e == Reverse(links[i]));
    }
    forall u, v | (u, v) in Both(links) ensures (v, u) in Both(links) {
      var e := (u, v);
      BothMembers(links, e);
      var i :| 0 <= i < |links| && (e == links[i] || e == Reverse(links[i]));
      BothMembers(links, Reverse(e));
    }
  }

  /** At most one unordered pair, two directed edges, per draw. */
  lemma {:induction false} BothSize(links: seq<Edge>)
    ensures |Both(links)| <= 2 * |links|
  {
    if links != [] {
      BothSize(links[..|links| - 1]);
      var last := links[|links| - 1];
      assert |{last, Reverse(last)}| <= 2;
    }
  }

  /** A node is touched by the added edges exactly when it is an endpoint of a draw. */
  lemma TouchesBoth(links: seq<Edge>, n: Node)
    ensures Touches(Both(links), n) <==> n in Endpoints(links)
  {
    if Touches(Both(links), n) {
      var e :| e in Both(links) && (e.0 == n || e.1 == n);
      BothMembers(links, e);
      var i :| 0 <= i < |links| && (e == links[i] || e == Reverse(links[i]));
      assert links[i] in links;
    }
    if n in Endpoints(links) {
      var l :| l in links && (l.0 == n || l.1 == n);
      var i :| 0 <= i < |links| && links[i] == l;
      BothMembers(links, l);
    }
  }

  /** A pool of at most one node admits no draw with two different ends. */
  lemma SmallPoolDrawsNothing(links: seq<Edge>, pool: set<Node>)
    requires Drawn(links, pool)
    ensures |pool| <= 1 ==> links == [] && Both(links) == {}
  {
    if links != [] {
      var l := links[0];
      assert l.1 in pool - {l.0};
      assert |pool - {l.0}| == |pool| - 1;
    }
  }

  /** Linking individuals keeps a network layered. */
  lemma LinkKeepsLayered(nodes: set<Node>, edges: set<Edge>, businesses: set<Node>, links: seq<Edge>)
    requires Layered(nodes, edges, businesses)
    requires Drawn(links, nodes - businesses)
    ensures Layered(nodes, edges + Both(links), businesses)
  {
    BothSymmetric(links, nodes - businesses);
  }

  /**
   * The two `add_edge` calls of one draw between different pool nodes, after
   * the draws `links` were added to edges that were `edges`.
   */
  method AddBothWays(g: DiGraph, u: Node, v: Node, ghost pool: set<Node>, ghost links: seq<Edge>, ghost edges: set<Edge>)
    requires g.Valid() && pool <= g.nodes && u in pool && v in pool && u != v
    requires g.edges == edges + Both(links) && Drawn(links, pool)
    modifies g
    ensures g.Valid() && g.nodes == old(g.nodes)
    ensures g.edges == old(g.edges) + {(u, v), (v, u)}
    ensures g.edges == edges + Both(links + [(u, v)]) && Drawn(links + [(u, v)], pool)
  {
    g.AddEdge(u, v);
    g.AddEdge(v, u);
    BothAppend(links, (u, v));
    DrawnAppend(links, (u, v), pool);
  }

  /**
   * The loop of `add_random_connections_to_network` over the pool list
   * `names`: `count` times draw two indices; when they differ, add the edge
   * both ways. The draws that differ are returned as `links`.
   */
  method DrawPairs(g: DiGraph, names: seq<Node>, pool: set<Node>, count: nat) returns (ghost links: seq<Edge>)
    requires g.Valid() && pool <= g.nodes && (count == 0 || |names| > 0)
    requires Distinct(names) && forall i | 0 <= i < |names| :: names[i] in pool
    modifies g
    ensures g.Valid() && g.nodes == old(g.nodes)
    ensures g.edges == old(g.edges) + Both(links)
    ensures |links| <= count
    ensures Drawn(links, pool)
  {
    var n := |names|;
    links := [];
    ghost var edges := g.edges;
    for i := 0 to count
      invariant g.Valid() && g.nodes == old(g.nodes)
      invariant g.edges == edges + Both(links)
      invariant |links| <= i
      invariant Drawn(links, pool)
    {
      var a :| 0 <= a < n;
      var b :| 0 <= b < n;
      if a != b {
        var u, v := names[a], names[b];
        AddBothWays(g, u, v, pool, links, edges);
        links := links + [(u, v)];
      }
    }
  }

  /**
   * `add_random_connections_to_network(g, count, exclude)`: `count` times,
   * draw two indices into the pool list; when they differ, add the edge both
   * ways. The draws that differ are returned as `links`. An empty pool with
   * `count > 0` fails at the first `randint(0, -1)`, before any edge.
   */
  method AddRandomConnections(g: DiGraph, count: nat, exclude: Option<set<Node>>)
    returns (r: Result<DiGraph>, ghost links: seq<Edge>)
    requires g.Valid()
    modifies g
    ensures g.Valid()
    ensures r.Failure? <==> count > 0 && EligiblePool(old(g.nodes), exclude) == {}
    ensures r.Failure? ==> r.error == EmptyRange && links == []
    ensures r.Success? ==> r.value == g
    ensures g.nodes == old(g.nodes)
    ensures g.edges == old(g.edges) + Both(links)
    ensures |links| <= count
    ensures Drawn(links, EligiblePool(old(g.nodes), exclude))
  {
    var pool := EligiblePool(g.nodes, exclude);
    var names := ListOf(pool);
    var n := |names|;
    links := [];
    if count > 0 && n == 0 {
      // the first `randint(0, n - 1)` raises, before any edge is added
      return Failure(EmptyRange), links;
    }
    links := DrawPairs(g, names, pool, count);
    r := Success(g);
  }
}
