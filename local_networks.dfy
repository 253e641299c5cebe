/**
 * `LocalNetwork`: a local community. Several social sub-networks are unioned,
 * a few random links are added across them, and then local businesses are
 * injected, each with customers sampled from the individuals.
 */
module LocalNetworks {
  import opened Graphs
  import opened Outcomes
  import opened Ids
  import opened Utils
  import opened SocialNetwork
  import opened Businesses

  /** The default of `num_connections_per_local_network`. */
  const DefaultConnectionsPerLocalNetwork: nat := 5

  /**
   * How many sub-networks `_link_social_networks` builds: one before the loop
   * and one per pass of `range(num_social_networks - 1)`, which is empty
   * when `num_social_networks` is 0.
   */
  function SubNetworkCount(numSocial: nat): (c: nat)
    ensures c >= 1
    ensures c == numSocial || (numSocial == 0 && c == 1)
  {
    if numSocial == 0 then 1 else numSocial
  }

  /**
   * A built sub-network, as `create_network` leaves it: no businesses, at
   * most `numberIndividuals` individuals, layered, no isolate left after
   * pruning, and at most two edges per draw of the
   * `numberIndividuals * averageConnections` asked for.
   */
  ghost predicate SubNetwork(p: Part, numberIndividuals: nat, averageConnections: nat) {
    && p.businesses == {} && |p.nodes| <= numberIndividuals
    && Layered(p.nodes, p.edges, {}) && (forall n {:trigger Touches(p.edges, n)} | n in p.nodes :: Touches(p.edges, n))
    && |p.edges| <= 2 * (numberIndividuals * averageConnections)
  }

  /** Every unioned sub-network is a built `SocialSubNetwork`. */
  ghost predicate Social(parts: seq<Part>, numberIndividuals: nat, averageConnections: nat)
    decreases |parts|, 1
  {
    parts == [] || SocialLast(parts, numberIndividuals, averageConnections)
  }

  /** The last of `parts` is a built sub-network, and so are those before it. */
  ghost predicate SocialLast(parts: seq<Part>, numberIndividuals: nat, averageConnections: nat)
    requires parts != []
    decreases |parts|, 0
  {
    Social(parts[..|parts| - 1], numberIndividuals, averageConnections) &&
    SubNetwork(parts[|parts| - 1], numberIndividuals, averageConnections)
  }

  lemma SocialAppend(parts: seq<Part>, p: Part, numberIndividuals: nat, averageConnections: nat)
    requires Social(parts, numberIndividuals, averageConnections) && SubNetwork(p, numberIndividuals, averageConnections)
    ensures Social(parts + [p], numberIndividuals, averageConnections)
  {
    assert (parts + [p])[..|parts|] == parts;
    assert SocialLast(parts + [p], numberIndividuals, averageConnections);
  }

  /**
   * Every unioned sub-network has no businesses, at most `numberIndividuals`
   * individuals, no isolate, and at most two edges per draw asked for.
   */
  lemma {:induction false} SocialEach(parts: seq<Part>, numberIndividuals: nat, averageConnections: nat, k: nat)
    requires Social(parts, numberIndividuals, averageConnections) && k < |parts|
    ensures parts[k].businesses == {} && |parts[k].nodes| <= numberIndividuals
    ensures Layered(parts[k].nodes, parts[k].edges, {}) && Isolated(parts[k].nodes, parts[k].edges) == {}
    ensures |parts[k].edges| <= 2 * (numberIndividuals * averageConnections)
  {
    assert SocialLast(parts, numberIndividuals, averageConnections);
    if k < |parts| - 1 {
      SocialEach(parts[..|parts| - 1], numberIndividuals, averageConnections, k);
    }
  }

  /**
   * With at most one individual, or no connections per person, pruning
   * leaves a sub-network empty: a single individual can only draw itself,
   * and without draws every individual is isolated.
   */
  lemma EmptySubNetwork(p: Part, numberIndividuals: nat, averageConnections: nat)
    requires SubNetwork(p, numberIndividuals, averageConnections)
    requires numberIndividuals <= 1 || averageConnections == 0
    ensures p.nodes == {} && p.edges == {}
  {
    if n :| n in p.nodes {
      if averageConnections == 0 {
        ghost var touched := Touches(p.edges, n);
        assert false;
      } else {
        assert Touches(p.edges, n);
        var e :| e in p.edges && (e.0 == n || e.1 == n);
        SubsetSize({e.0, e.1}, p.nodes);
        assert false;
      }
    }
  }

  /** Sub-networks of at most one individual, or of no connections, contribute no node. */
  lemma {:induction false} SocialNone(parts: seq<Part>, numberIndividuals: nat, averageConnections: nat)
    requires Social(parts, numberIndividuals, averageConnections)
    requires numberIndividuals <= 1 || averageConnections == 0
    ensures NodesOf(parts) == {}
  {
    if parts != [] {
      assert SocialLast(parts, numberIndividuals, averageConnections);
      SocialNone(parts[..|parts| - 1], numberIndividuals, averageConnections);
      EmptySubNetwork(parts[|parts| - 1], numberIndividuals, averageConnections);
    }
  }

  /**
   * A built local network: the disjoint sub-networks, the cross-links between
   * their individuals and the local businesses, whose customers are
   * individuals and which are sinks.
   */
  ghost predicate LocalShape(parts: seq<Part>, links: seq<Edge>, patrons: seq<Patronage>,
                             businesses: set<Node>, nodes: set<Node>, edges: set<Edge>)
  {
    && Disjoint(parts) && Drawn(links, NodesOf(parts))
    && WellFormed(NodesOf(parts), EdgesOf(parts) + Both(links))
    && Served(patrons, NodesOf(parts), NodesOf(parts))
    && businesses == NamesOf(patrons)
    && nodes == NodesOf(parts) + businesses
    && edges == EdgesOf(parts) + Both(links) + Attached(patrons)
    && Layered(nodes, edges, businesses)
  }

  /**
   * Injecting businesses whose customers are the individuals of the linked
   * sub-networks gives a local network's shape: the new names are sinks, and
   * the sub-networks and cross-links are kept.
   */
  lemma InjectedShape(parts: seq<Part>, links: seq<Edge>, patrons: seq<Patronage>)
    requires Disjoint(parts) && Drawn(links, NodesOf(parts))
    requires Layered(NodesOf(parts), EdgesOf(parts) + Both(links), {})
    requires Served(patrons, NodesOf(parts), NodesOf(parts))
    ensures LocalShape(parts, links, patrons, NamesOf(patrons), NodesOf(parts) + NamesOf(patrons),
                       EdgesOf(parts) + Both(links) + Attached(patrons))
  {
    AttachKeepsLayered(NodesOf(parts), EdgesOf(parts) + Both(links), {}, patrons, NodesOf(parts), NodesOf(parts));
    assert {} + NamesOf(patrons) == NamesOf(patrons);
  }

  /**
   * In a local network, the nodes with an edge into local business `k` are
   * exactly the customers sampled for it, all of them individuals.
   */
  lemma LocalInNeighbours(parts: seq<Part>, links: seq<Edge>, patrons: seq<Patronage>,
                          businesses: set<Node>, nodes: set<Node>, edges: set<Edge>, k: nat, u: Node)
    requires LocalShape(parts, links, patrons, businesses, nodes, edges) && k < |patrons|
    ensures (u, patrons[k].business) in edges <==> u in patrons[k].customers
    ensures u in patrons[k].customers ==> u in NodesOf(parts) && u !in businesses
  {
    InNeighboursExact(NodesOf(parts), EdgesOf(parts) + Both(links), patrons, NodesOf(parts), NodesOf(parts), k, u);
    AttachedEnds(patrons, NodesOf(parts), NodesOf(parts));
    NamesCount(patrons, NodesOf(parts), NodesOf(parts));
  }

  /** The individuals of a local network, every node but its businesses, are its sub-networks' nodes. */
  lemma ShapeIndividuals(parts: seq<Part>, links: seq<Edge>, patrons: seq<Patronage>,
                         businesses: set<Node>, nodes: set<Node>, edges: set<Edge>)
    requires LocalShape(parts, links, patrons, businesses, nodes, edges)
    ensures nodes - businesses == NodesOf(parts)
  {
    NamesCount(patrons, NodesOf(parts), NodesOf(parts));
  }

  /**
   * When `LocalNetwork(...)` raises, given the sub-networks it unioned: the
   * cross-linker is asked for links among no individuals, or a business asks
   * for more customers than there are individuals.
   */
  ghost predicate BuildFails(crossLinks: nat, userCounts: seq<nat>, parts: seq<Part>) {
    || (crossLinks > 0 && |NodesOf(parts)| == 0)
    || exists i | 0 <= i < |userCounts| :: userCounts[i] > |NodesOf(parts)|
  }

  /** What a failing `LocalNetwork(...)` raises: the cross-linker runs before any business is sampled. */
  function BuildError(crossLinks: nat, parts: seq<Part>): GenError {
    if crossLinks > 0 && |NodesOf(parts)| == 0 then EmptyRange else SampleLargerThanPopulation
  }

  /**
   * A local network whose sub-networks have at most one individual each, or
   * no connections per person, always fails when it asks for cross-links:
   * every sub-network is pruned empty and `random.randint(0, -1)` raises.
   */
  lemma LonelyLocalFails(crossLinks: nat, userCounts: seq<nat>, parts: seq<Part>,
                         numberIndividuals: nat, averageConnections: nat)
    requires Social(parts, numberIndividuals, averageConnections) && crossLinks > 0
    requires numberIndividuals <= 1 || averageConnections == 0
    ensures BuildFails(crossLinks, userCounts, parts)
    ensures BuildError(crossLinks, parts) == EmptyRange
  {
    SocialNone(parts, numberIndividuals, averageConnections);
  }

  class LocalNetwork {
    /** `self.local_network`. */
    const graph: DiGraph
    /** `self.local_business_names`. */
    const businesses: set<Node>
    /** The social sub-networks, as they were unioned. */
    ghost const parts: seq<Part>
    /** The realised cross-links between individuals. */
    ghost const links: seq<Edge>
    /** The injected businesses and their customers. */
    ghost const patrons: seq<Patronage>

    /** The shape of a built local network, on its graph. */
    ghost predicate Valid()
      reads this, graph
    {
      graph.Valid() && LocalShape(parts, links, patrons, businesses, graph.nodes, graph.edges)
    }

    /**
     * A valid local network over the sub-networks `parts`, with one business
     * per count, business `i` having sampled `userCounts[i]` customers.
     */
    ghost predicate Built(parts: seq<Part>, userCounts: seq<nat>)
      reads this, graph
    {
      && Valid() && this.parts == parts
      && |businesses| == |userCounts| && |patrons| == |userCounts| && CustomerCounts(patrons) == userCounts
    }

    constructor Assemble(graph: DiGraph, businesses: set<Node>,
                         ghost parts: seq<Part>, ghost links: seq<Edge>, ghost patrons: seq<Patronage>)
      requires graph.Valid() && LocalShape(parts, links, patrons, businesses, graph.nodes, graph.edges)
      ensures Valid()
      ensures this.graph == graph && this.businesses == businesses
      ensures this.parts == parts && this.links == links && this.patrons == patrons
    {
      this.graph, this.businesses := graph, businesses;
      this.parts, this.links, this.patrons := parts, links, patrons;
    }

    /**
     * `LocalNetwork(num_social_networks, num_local_businesses,
     * num_connections_per_local_network)`, with the sub-networks built as
     * `SocialSubNetwork(numberIndividuals, averageConnections)`. Business `i`
     * samples `userCounts[i]` customers, so there are `|userCounts|`
     * businesses. Fails when the cross-linker meets an empty pool or a
     * business asks for more customers than there are individuals.
     */
    static method Build(ids: IdSource, numSocial: nat, crossPer: nat, userCounts: seq<nat>,
                        numberIndividuals: nat, averageConnections: nat)
      returns (r: Result<LocalNetwork>, ghost parts: seq<Part>)
      requires ids.Valid()
      modifies ids
      ensures ids.Valid() && old(ids.issued) <= ids.issued
      ensures |parts| == SubNetworkCount(numSocial) && Disjoint(parts)
      ensures Social(parts, numberIndividuals, averageConnections)
      ensures r.Failure? <==> BuildFails(crossPer * numSocial, userCounts, parts)
      ensures r.Failure? ==> r.error == BuildError(crossPer * numSocial, parts)
      ensures r.Success? ==> fresh(r.value) && fresh(r.value.graph) && r.value.Built(parts, userCounts)
      ensures r.Success? ==> |r.value.links| <= crossPer * numSocial
      ensures r.Success? ==> r.value.graph.nodes <= ids.issued - old(ids.issued)
    {
      var linked, ps, ls := LinkSocialNetworks(ids, numSocial, crossPer, numberIndividuals, averageConnections);
      parts := ps;
      assert |NodesOf(parts)| == 0 <==> NodesOf(parts) == {};
      if linked.Failure? {
        return Failure(linked.error), parts;
      }
      r := AddLocalBusinesses(ids, linked.value, parts, ls, userCounts);
    }

    /**
     * `_add_local_businesses`: the customer pool is the node list taken
     * before any business is added; the new network keeps its graph and
     * exposes the business names.
     */
    static method AddLocalBusinesses(ids: IdSource, g: DiGraph, ghost parts: seq<Part>, ghost links: seq<Edge>,
                                     userCounts: seq<nat>)
      returns (r: Result<LocalNetwork>)
      requires ids.Valid() && g.Valid() && g.nodes <= ids.issued
      requires Disjoint(parts) && Drawn(links, NodesOf(parts))
      requires g.nodes == NodesOf(parts) && g.edges == EdgesOf(parts) + Both(links)
      requires Layered(g.nodes, g.edges, {})
      modifies ids, g
      ensures ids.Valid() && old(ids.issued) <= ids.issued
      ensures r.Failure? <==> exists i | 0 <= i < |userCounts| :: userCounts[i] > |NodesOf(parts)|
      ensures r.Failure? ==> r.error == SampleLargerThanPopulation
      ensures r.Success? ==> fresh(r.value) && r.value.graph == g && r.value.Built(parts, userCounts)
      ensures r.Success? ==> r.value.links == links
      ensures r.Success? ==> r.value.businesses <= ids.issued - old(ids.issued)
      ensures r.Success? ==> r.value.graph.nodes == NodesOf(parts) + r.value.businesses
    {
      ghost var individuals := g.nodes;
      var named, patrons := InjectBusinesses(ids, g, {}, userCounts);
      assert individuals - {} == individuals;
      if named.Failure? {
        return Failure(named.error);
      }
      InjectedShape(parts, links, patrons);
      var local := new LocalNetwork.Assemble(g, named.value, parts, links, patrons);
      r := Success(local);
    }

    /**
     * `_link_social_networks`: union `SubNetworkCount(numSocial)` fresh
     * sub-networks, then ask the linker for `crossPer * numSocial` edges
     * with no exclusions.
     */
    static method LinkSocialNetworks(ids: IdSource, numSocial: nat, crossPer: nat,
                                     numberIndividuals: nat, averageConnections: nat)
      returns (r: Result<DiGraph>, ghost parts: seq<Part>, ghost links: seq<Edge>)
      requires ids.Valid()
      modifies ids
      ensures ids.Valid() && old(ids.issued) <= ids.issued
      ensures |parts| == SubNetworkCount(numSocial) && Disjoint(parts)
      ensures Social(parts, numberIndividuals, averageConnections)
      ensures NodesOf(parts) <= ids.issued - old(ids.issued)
      ensures r.Failure? <==> crossPer * numSocial > 0 && NodesOf(parts) == {}
      ensures r.Failure? ==> r.error == EmptyRange
      ensures r.Success? ==> fresh(r.value) && r.value.Valid()
      ensures r.Success? ==> |links| <= crossPer * numSocial && Drawn(links, NodesOf(parts))
      ensures r.Success? ==> r.value.nodes == NodesOf(parts)
      ensures r.Success? ==> r.value.edges == EdgesOf(parts) + Both(links)
      ensures r.Success? ==> Layered(r.value.nodes, r.value.edges, {})
    {
      var g: DiGraph;
      g, parts := UnionSocialNetworks(ids, SubNetworkCount(numSocial), numberIndividuals, averageConnections);
      ghost var unioned := g.edges;
      var linked;
      ProductOfCounts(crossPer, numSocial);
      linked, links := AddRandomConnections(g, crossPer * numSocial, None);
      if linked.Failure? {
        return Failure(linked.error), parts, links;
      }
      LinkKeepsLayered(g.nodes, unioned, {}, links);
      r := Success(g);
    }

    /** The union loop of `_link_social_networks`. */
    static method UnionSocialNetworks(ids: IdSource, count: nat, numberIndividuals: nat, averageConnections: nat)
      returns (g: DiGraph, ghost parts: seq<Part>)
      requires ids.Valid() && count >= 1
      modifies ids
      ensures ids.Valid() && old(ids.issued) <= ids.issued
      ensures fresh(g) && g.Valid()
      ensures |parts| == count && Disjoint(parts) && Social(parts, numberIndividuals, averageConnections)
      ensures NodesOf(parts) <= ids.issued - old(ids.issued)
      ensures g.nodes == NodesOf(parts) && g.edges == EdgesOf(parts)
      ensures Layered(g.nodes, g.edges, {})
    {
      g, parts := UnionFirst(ids, numberIndividuals, averageConnections);
      for i := 1 to count
        invariant ids.Valid() && old(ids.issued) <= ids.issued
        invariant fresh(g) && g.Valid()
        invariant |parts| == i && Disjoint(parts) && Social(parts, numberIndividuals, averageConnections)
        invariant NodesOf(parts) <= ids.issued - old(ids.issued)
        invariant g.nodes == NodesOf(parts) && g.edges == EdgesOf(parts)
        invariant Layered(g.nodes, g.edges, {})
      {
        ghost var q;
        g, q := UnionNext(ids, g, parts, numberIndividuals, averageConnections);
        parts := parts + [q];
      }
    }

    /** The sub-network built before the union loop; its graph is used as is. */
    static method UnionFirst(ids: IdSource, numberIndividuals: nat, averageConnections: nat)
      returns (g: DiGraph, ghost parts: seq<Part>)
      requires ids.Valid()
      modifies ids
      ensures ids.Valid() && old(ids.issued) <= ids.issued
      ensures fresh(g) && g.Valid()
      ensures |parts| == 1 && Disjoint(parts) && Social(parts, numberIndividuals, averageConnections)
      ensures NodesOf(parts) <= ids.issued - old(ids.issued)
      ensures g.nodes == NodesOf(parts) && g.edges == EdgesOf(parts)
      ensures Layered(g.nodes, g.edges, {})
    {
      var first := new SocialSubNetwork(ids, numberIndividuals, averageConnections);
      g := first.GetGraph();
      var p := SocialPart(first);
      PartsAppend([], p);
      DisjointAppend([], p);
      SocialAppend([], p, numberIndividuals, averageConnections);
      parts := [p];
    }

    /** One pass of the union loop: `nx.union(local_network, SocialSubNetwork(...).get_graph())`. */
    static method UnionNext(ids: IdSource, g: DiGraph, ghost parts: seq<Part>,
                            numberIndividuals: nat, averageConnections: nat)
      returns (h: DiGraph, ghost q: Part)
      requires ids.Valid() && g.Valid()
      requires Disjoint(parts) && Social(parts, numberIndividuals, averageConnections) && NodesOf(parts) <= ids.issued
      requires g.nodes == NodesOf(parts) && g.edges == EdgesOf(parts) && Layered(g.nodes, g.edges, {})
      modifies ids
      ensures ids.Valid() && old(ids.issued) <= ids.issued && fresh(h) && h.Valid()
      ensures Disjoint(parts + [q]) && Social(parts + [q], numberIndividuals, averageConnections)
      ensures NodesOf(parts + [q]) == NodesOf(parts) + q.nodes && q.nodes <= ids.issued - old(ids.issued)
      ensures h.nodes == NodesOf(parts + [q]) && h.edges == EdgesOf(parts + [q])
      ensures Layered(h.nodes, h.edges, {})
    {
      var next := new SocialSubNetwork(ids, numberIndividuals, averageConnections);
      q := SocialPart(next);
      UnionKeepsLayered(g.nodes, g.edges, {}, q.nodes, q.edges, {});
      h := DiGraph.Union(g, next.GetGraph());
      PartsAppend(parts, q);
      DisjointAppend(parts, q);
      SocialAppend(parts, q, numberIndividuals, averageConnections);
    }

    /** A snapshot of a freshly built sub-network, with what its constructor promises. */
    static ghost function SocialPart(s: SocialSubNetwork): (p: Part)
      reads s, s.graph
      requires s.graph.Valid() && s.graph.nodes == Endpoints(s.links) && s.graph.edges == Both(s.links)
      requires Drawn(s.links, s.created)
      ensures p.nodes == s.graph.nodes && p.edges == s.graph.edges && p.businesses == {}
      ensures p.nodes <= s.created && |p.nodes| <= |s.created|
      ensures Layered(p.nodes, p.edges, {}) && forall n {:trigger Touches(p.edges, n)} | n in p.nodes :: Touches(p.edges, n)
      ensures |p.edges| <= 2 * |s.links|
    {
      EndpointsWithin(s.links, s.created);
      SubsetSize(s.graph.nodes, s.created);
      PrunedShape(s.created, s.links);
      EndpointsTouched(s.links);
      BothSize(s.links);
      Part(s.graph.nodes, s.graph.edges, {})
    }

    /** `get_graph`: a layered graph whose businesses are `businesses`. */
    function GetGraph(): (g: DiGraph)
      reads this, graph
      requires Valid()
      ensures g == graph
      ensures Layered(g.nodes, g.edges, businesses)
    {
      graph
    }

    /**
     * `get_businesses`: one name per injected business, each a node of the
     * graph with no outgoing edge.
     */
    function GetBusinesses(): (b: set<Node>)
      reads this, graph
      requires Valid()
      ensures b == businesses && |b| == |patrons|
      ensures b <= graph.nodes && forall e | e in graph.edges :: e.0 !in b
    {
      NamesCount(patrons, NodesOf(parts), NodesOf(parts));
      businesses
    }
  }
}
