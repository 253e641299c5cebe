/**
 * `SocialSubNetwork`: a small group of individuals linked at random, with the
 * individuals who drew no link pruned away.
 */
module SocialNetwork {
  import opened Graphs
  import opened Outcomes
  import opened Ids
  import opened Utils

  /** A created individual survives pruning exactly when some draw names it. */
  lemma PrunedToEndpoints(created: set<Node>, links: seq<Edge>)
    requires Drawn(links, created)
    ensures created - Isolated(created, Both(links)) == Endpoints(links)
  {
    forall n ensures n in created - Isolated(created, Both(links)) <==> n in Endpoints(links) {
      TouchesBoth(links, n);
      if n in Endpoints(links) {
        var l :| l in links && (l.0 == n || l.1 == n);
        var i :| 0 <= i < |links| && links[i] == l;
      }
    }
  }

  /** No survivor of pruning is isolated. */
  lemma EndpointsTouched(links: seq<Edge>)
    ensures Isolated(Endpoints(links), Both(links)) == {}
  {
    forall n | n in Endpoints(links) ensures Touches(Both(links), n) {
      TouchesBoth(links, n);
    }
  }

  /**
   * The pruned social network has the layered shape with no businesses: its
   * edges join survivors, come in reciprocal pairs and are never self-loops.
   */
  lemma PrunedShape(created: set<Node>, links: seq<Edge>)
    requires Drawn(links, created)
    ensures Layered(Endpoints(links), Both(links), {})
  {
    DrawnWithinEndpoints(links, created);
    BothSymmetric(links, Endpoints(links));
  }

  /**
   * Arithmetic helper: a product of counts, such as `number_individuals *
   * average_connections_per_person`, is a count, and is zero only when one
   * of the factors is.
   */
  lemma ProductOfCounts(a: nat, b: nat)
    ensures a * b >= 0 && (a * b == 0 <==> a == 0 || b == 0)
  {
  }

  /** No individual of a built sub-network is isolated. */
  lemma NoIsolates(s: SocialSubNetwork)
    requires s.Valid()
    ensures Isolated(s.graph.nodes, s.graph.edges) == {}
  {
    EndpointsTouched(s.links);
  }

  class SocialSubNetwork {
    /** `self._social_network`. */
    const graph: DiGraph
    /** The `number_individuals` identifiers created before linking. */
    ghost const created: set<Node>
    /** The draws of the linker that joined two different individuals. */
    ghost const links: seq<Edge>

    /** The pruned graph holds exactly the endpoints and the edges of the realised draws. */
    ghost predicate Valid()
      reads this, graph
    {
      graph.Valid() && Drawn(links, created) && graph.nodes == Endpoints(links) && graph.edges == Both(links)
    }

    /** `SocialSubNetwork(number_individuals, average_connections_per_person)`. */
    constructor (ids: IdSource, numberIndividuals: nat, averageConnections: nat)
      requires ids.Valid()
      modifies ids
      ensures ids.Valid() && fresh(graph)
      ensures ids.issued == old(ids.issued) + created && created !! old(ids.issued)
      ensures |created| == numberIndividuals
      ensures |links| <= numberIndividuals * averageConnections && Drawn(links, created)
      ensures graph.Valid() && graph.edges == Both(links)
      ensures graph.nodes == Endpoints(links) && graph.nodes <= created
      ensures Valid()
    {
      var g, c, l := CreateNetwork(ids, numberIndividuals, averageConnections);
      graph, created, links := g, c, l;
    }

    /**
     * `create_network`: add `numberIndividuals` fresh nodes, ask the linker for
     * `numberIndividuals * averageConnections` edges with no exclusions, then
     * remove the isolates.
     */
    static method CreateNetwork(ids: IdSource, numberIndividuals: nat, averageConnections: nat)
      returns (g: DiGraph, ghost created: set<Node>, ghost links: seq<Edge>)
      requires ids.Valid()
      modifies ids
      ensures ids.Valid() && fresh(g)
      ensures ids.issued == old(ids.issued) + created && created !! old(ids.issued)
      ensures |created| == numberIndividuals
      ensures |links| <= numberIndividuals * averageConnections && Drawn(links, created)
      ensures g.Valid() && g.edges == Both(links)
      ensures g.nodes == Endpoints(links) && g.nodes <= created
    {
      g, created := AddIndividuals(ids, numberIndividuals);
      ProductOfCounts(numberIndividuals, averageConnections);
      var numberEdges := numberIndividuals * averageConnections;
      var linked;
      linked, links := AddRandomConnections(g, numberEdges, None);
      if numberEdges > 0 {
        assert numberIndividuals > 0;
        assert g.nodes != {} by { assert |created| > 0; }
      }
      assert linked.Success?;
      PruneIsolates(g, created, links);
      EndpointsWithin(links, created);
    }

    /**
     * The last step of `create_network`: removing the isolates leaves exactly
     * the individuals some draw named.
     */
    static method PruneIsolates(g: DiGraph, ghost created: set<Node>, ghost links: seq<Edge>)
      requires g.Valid() && g.nodes == created && g.edges == Both(links) && Drawn(links, created)
      modifies g
      ensures g.Valid() && g.edges == Both(links)
      ensures g.nodes == Endpoints(links)
    {
      g.RemoveIsolates();
      PrunedToEndpoints(created, links);
    }

    /** The first loop of `create_network`: one fresh node per individual. */
    static method AddIndividuals(ids: IdSource, numberIndividuals: nat)
      returns (g: DiGraph, ghost created: set<Node>)
      requires ids.Valid()
      modifies ids
      ensures ids.Valid() && fresh(g) && g.Valid()
      ensures ids.issued == old(ids.issued) + created && created !! old(ids.issued)
      ensures |created| == numberIndividuals
      ensures g.nodes == created && g.edges == {}
    {
      g := new DiGraph();
      created := {};
      ghost var issued := ids.issued;
      for i := 0 to numberIndividuals
        invariant ids.Valid() && g.Valid()
        invariant ids.issued == issued + created && created !! issued
        invariant |created| == i
        invariant g.nodes == created && g.edges == {}
      {
        var name := AddIndividual(ids, g, created, issued);
        created := created + {name};
      }
    }

    /** One pass of the first loop: a fresh identifier becomes a new node. */
    static method AddIndividual(ids: IdSource, g: DiGraph, ghost created: set<Node>, ghost issued: set<Node>)
      returns (name: Node)
      requires ids.Valid() && g.Valid() && ids.issued == issued + created && created !! issued
      requires g.nodes == created && g.edges == {}
      modifies ids, g
      ensures ids.Valid() && g.Valid()
      ensures ids.issued == issued + (created + {name}) && created + {name} !! issued
      ensures |created + {name}| == |created| + 1
      ensures g.nodes == created + {name} && g.edges == {}
    {
      name := ids.Fresh();
      g.AddNode(name);
    }

    /**
     * `get_graph`: the graph built by the constructor, whose nodes are some of
     * the created individuals, joined by reciprocal edges without self-loops.
     */
    function GetGraph(): (g: DiGraph)
      reads this, graph
      requires Valid()
      ensures g == graph
      ensures Layered(g.nodes, g.edges, {}) && g.nodes <= created
    {
      PrunedShape(created, links);
      EndpointsWithin(links, created);
      graph
    }
  }
}
