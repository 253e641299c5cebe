/**
 * `LargeNetwork`: a region made of several local networks. The local networks
 * are unioned, individuals are linked across them with every business left
 * out, and large businesses are injected whose customers are individuals only.
 */
module NationalNetwork {
  import opened Graphs
  import opened Outcomes
  import opened Ids
  import opened Utils
  import opened SocialNetwork
  import opened Businesses
  import opened LocalNetworks

  /**
   * The parameters that `**kwargs` hands on to every `LocalNetwork` and its
   * sub-networks: `num_local_businesses`, `number_individuals` and
   * `average_connections_per_person`.
   */
  datatype LocalParams = LocalParams(numBusinesses: nat, numberIndividuals: nat, averageConnections: nat)

  /**
   * The `num_social_networks` of every local network of a region: its
   * default. `_link_local_networks` takes `num_local_networks` in the
   * position of its own `num_social_networks` parameter, so a
   * `num_social_networks` keyword in `**kwargs` cannot get through.
   */
  const DefaultSocialNetworks: nat := 50

  /** The cross-links each local network of a region asks for: 5 per sub-network. */
  const LocalCrossLinks: nat := DefaultConnectionsPerLocalNetwork * DefaultSocialNetworks

  /** A snapshot of a built local network. */
  ghost function LocalPart(l: LocalNetwork): Part
    reads l, l.graph
  {
    Part(l.graph.nodes, l.graph.edges, l.businesses)
  }

  /**
   * A built region: the union of the disjoint local networks, the cross-links
   * between their individuals and the large businesses, with every business a
   * sink.
   */
  ghost predicate RegionShape(locals: seq<Part>, links: seq<Edge>, patrons: seq<Patronage>,
                              businessNames: set<Node>, nodes: set<Node>, edges: set<Edge>)
  {
    && Disjoint(locals)
    && Drawn(links, NodesOf(locals) - BusinessesOf(locals))
    && WellFormed(NodesOf(locals), EdgesOf(locals) + Both(links))
    && Served(patrons, NodesOf(locals) - BusinessesOf(locals), NodesOf(locals))
    && businessNames == BusinessesOf(locals) + NamesOf(patrons)
    && nodes == NodesOf(locals) + NamesOf(patrons)
    && edges == EdgesOf(locals) + Both(links) + Attached(patrons)
    && Layered(nodes, edges, businessNames)
  }

  /**
   * `business_names` contains the business set of every local network, and
   * the region contains each local network's individuals and businesses.
   */
  lemma RegionCovers(locals: seq<Part>, links: seq<Edge>, patrons: seq<Patronage>,
                     businessNames: set<Node>, nodes: set<Node>, edges: set<Edge>)
    requires RegionShape(locals, links, patrons, businessNames, nodes, edges)
    ensures forall i | 0 <= i < |locals| :: locals[i].businesses <= businessNames && locals[i].nodes <= nodes
  {
    forall i | 0 <= i < |locals| ensures locals[i].businesses <= businessNames && locals[i].nodes <= nodes {
      BusinessesOfCovers(locals, i);
      NodesOfCovers(locals, i);
    }
  }

  /**
   * In a region, the nodes with an edge into large business `k` are exactly
   * the customers sampled for it, all of them individuals.
   */
  lemma RegionInNeighbours(locals: seq<Part>, links: seq<Edge>, patrons: seq<Patronage>,
                           businessNames: set<Node>, nodes: set<Node>, edges: set<Edge>, k: nat, u: Node)
    requires RegionShape(locals, links, patrons, businessNames, nodes, edges) && k < |patrons|
    ensures (u, patrons[k].business) in edges <==> u in patrons[k].customers
    ensures u in patrons[k].customers ==> u in nodes && u !in businessNames
  {
    InNeighboursExact(NodesOf(locals), EdgesOf(locals) + Both(links), patrons,
                      NodesOf(locals) - BusinessesOf(locals), NodesOf(locals), k, u);
    AttachedEnds(patrons, NodesOf(locals) - BusinessesOf(locals), NodesOf(locals));
    NamesCount(patrons, NodesOf(locals) - BusinessesOf(locals), NodesOf(locals));
  }

  /**
   * Every local network of a region can be completed from the sub-networks
   * it drew: `subs[k]` are those of local network `k`.
   */
  ghost predicate AllFit(shape: LocalParams, subs: seq<seq<Part>>, localUserCounts: seq<seq<nat>>) {
    && |subs| <= |localUserCounts|
    && forall k | 0 <= k < |subs| :: !BuildFails(LocalCrossLinks, localUserCounts[k], subs[k])
  }

  lemma AllFitAppend(shape: LocalParams, subs: seq<seq<Part>>, sub: seq<Part>, localUserCounts: seq<seq<nat>>)
    requires AllFit(shape, subs, localUserCounts) && |subs| < |localUserCounts|
    requires !BuildFails(LocalCrossLinks, localUserCounts[|subs|], sub)
    ensures AllFit(shape, subs + [sub], localUserCounts)
  {
  }

  /**
   * The sub-networks one local network of a region drew: its default 50,
   * each built with the region's `number_individuals` and
   * `average_connections_per_person`.
   */
  ghost predicate LocalSubs(sub: seq<Part>, shape: LocalParams) {
    |sub| == DefaultSocialNetworks && Social(sub, shape.numberIndividuals, shape.averageConnections)
  }

  /** Every local network drew its 50 built sub-networks. */
  ghost predicate AllSocial(subs: seq<seq<Part>>, shape: LocalParams) {
    forall k | 0 <= k < |subs| :: LocalSubs(subs[k], shape)
  }

  lemma AllSocialAppend(subs: seq<seq<Part>>, sub: seq<Part>, shape: LocalParams)
    requires AllSocial(subs, shape) && LocalSubs(sub, shape)
    ensures AllSocial(subs + [sub], shape)
  {
  }

  /** Every local network has `numBusinesses` local businesses. */
  ghost predicate EachHas(locals: seq<Part>, numBusinesses: nat) {
    locals == [] ||
    (EachHas(locals[..|locals| - 1], numBusinesses) && |locals[|locals| - 1].businesses| == numBusinesses)
  }

  lemma EachHasAppend(locals: seq<Part>, q: Part, numBusinesses: nat)
    requires EachHas(locals, numBusinesses) && |q.businesses| == numBusinesses
    ensures EachHas(locals + [q], numBusinesses)
  {
    assert (locals + [q])[..|locals|] == locals;
  }

  /** Local network `k` has exactly `numBusinesses` local businesses. */
  lemma {:induction false} EachHasAt(locals: seq<Part>, numBusinesses: nat, k: nat)
    requires EachHas(locals, numBusinesses) && k < |locals|
    ensures |locals[k].businesses| == numBusinesses
  {
    if k < |locals| - 1 {
      EachHasAt(locals[..|locals| - 1], numBusinesses, k);
    }
  }

  /** The individuals of all local networks: the nodes of all their sub-networks. */
  ghost function Individuals(subs: seq<seq<Part>>): set<Node> {
    if subs == [] then {} else Individuals(subs[..|subs| - 1]) + NodesOf(subs[|subs| - 1])
  }

  lemma IndividualsAppend(subs: seq<seq<Part>>, sub: seq<Part>)
    ensures Individuals(subs + [sub]) == Individuals(subs) + NodesOf(sub)
  {
    assert (subs + [sub])[..|subs|] == subs;
  }

  /** Unioning a disjoint network adds its individuals to the individuals so far. */
  lemma IndividualsStep(nodes: set<Node>, businesses: set<Node>, nodes': set<Node>, businesses': set<Node>)
    requires businesses <= nodes && businesses' <= nodes' && nodes !! nodes'
    ensures (nodes + nodes') - (businesses + businesses') == (nodes - businesses) + (nodes' - businesses')
  {
  }

  /**
   * The union of the first `|parts|` local networks of a region: disjoint,
   * with the business names collected, each local network complete, and the
   * individuals those of the sub-networks `subs` they drew.
   */
  ghost predicate UnionShape(shape: LocalParams, localUserCounts: seq<seq<nat>>, parts: seq<Part>,
                             subs: seq<seq<Part>>, names: set<Node>, nodes: set<Node>, edges: set<Edge>)
  {
    && |parts| == |subs| && Disjoint(parts) && names == BusinessesOf(parts)
    && AllFit(shape, subs, localUserCounts) && AllSocial(subs, shape)
    && EachHas(parts, shape.numBusinesses)
    && NodesOf(parts) - BusinessesOf(parts) == Individuals(subs)
    && nodes == NodesOf(parts) && edges == EdgesOf(parts) && Layered(nodes, edges, names)
  }

  /** The first complete local network, drawn from `sub`, starts the union's shape. */
  lemma UnionStarts(shape: LocalParams, localUserCounts: seq<seq<nat>>, parts: seq<Part>, sub: seq<Part>,
                    names: set<Node>, nodes: set<Node>, edges: set<Edge>)
    requires |parts| == 1 && Disjoint(parts) && names == BusinessesOf(parts)
    requires |localUserCounts| >= 1 && LocalSubs(sub, shape)
    requires !BuildFails(LocalCrossLinks, localUserCounts[0], sub)
    requires |parts[0].businesses| == shape.numBusinesses
    requires NodesOf(parts) - BusinessesOf(parts) == NodesOf(sub)
    requires nodes == NodesOf(parts) && edges == EdgesOf(parts) && Layered(nodes, edges, names)
    ensures UnionShape(shape, localUserCounts, parts, [sub], names, nodes, edges)
  {
    SubsStart(shape, localUserCounts, sub);
    EachHasAppend([], parts[0], shape.numBusinesses);
    assert [] + [parts[0]] == parts;
  }

  lemma SubsStart(shape: LocalParams, localUserCounts: seq<seq<nat>>, sub: seq<Part>)
    requires |localUserCounts| >= 1 && LocalSubs(sub, shape)
    requires !BuildFails(LocalCrossLinks, localUserCounts[0], sub)
    ensures AllFit(shape, [sub], localUserCounts) && AllSocial([sub], shape) && Individuals([sub]) == NodesOf(sub)
  {
    IndividualsAppend([], sub);
    AllSocialAppend([], sub, shape);
    assert [] + [sub] == [sub];
  }

  /** Unioning in one more complete local network `q`, drawn from `sub`, keeps the union's shape. */
  lemma UnionGrows(shape: LocalParams, localUserCounts: seq<seq<nat>>, parts: seq<Part>, subs: seq<seq<Part>>,
                   names: set<Node>, q: Part, sub: seq<Part>, names': set<Node>, nodes': set<Node>, edges': set<Edge>)
    requires UnionShape(shape, localUserCounts, parts, subs, names, NodesOf(parts), EdgesOf(parts))
    requires |subs| < |localUserCounts| && LocalSubs(sub, shape)
    requires !BuildFails(LocalCrossLinks, localUserCounts[|subs|], sub)
    requires |q.businesses| == shape.numBusinesses
    requires Disjoint(parts + [q]) && names' == BusinessesOf(parts + [q])
    requires NodesOf(parts + [q]) - BusinessesOf(parts + [q]) == (NodesOf(parts) - BusinessesOf(parts)) + NodesOf(sub)
    requires nodes' == NodesOf(parts + [q]) && edges' == EdgesOf(parts + [q]) && Layered(nodes', edges', names')
    ensures UnionShape(shape, localUserCounts, parts + [q], subs + [sub], names', nodes', edges')
  {
    IndividualsAppend(subs, sub);
    AllFitAppend(shape, subs, sub, localUserCounts);
    AllSocialAppend(subs, sub, shape);
    EachHasAppend(parts, q, shape.numBusinesses);
  }

  /**
   * How the local networks of a region drew their sub-networks `subs`: one
   * entry per local network built, up to and including the first that
   * failed, each its 50 built social sub-networks.
   */
  ghost predicate LocalsDrawn(count: nat, shape: LocalParams, localUserCounts: seq<seq<nat>>, subs: seq<seq<Part>>) {
    && |localUserCounts| == count && 1 <= |subs| <= count
    && AllFit(shape, subs[..|subs| - 1], localUserCounts)
    && AllSocial(subs, shape)
    && (|subs| < count ==> BuildFails(LocalCrossLinks, localUserCounts[|subs| - 1], subs[|subs| - 1]))
  }

  /**
   * The graph `_link_local_networks` returns: the union of the local
   * networks `parts` plus the realised cross-links `drawn`, all between
   * individuals, with every business a sink.
   */
  ghost predicate LinkedShape(shape: LocalParams, localUserCounts: seq<seq<nat>>, parts: seq<Part>, subs: seq<seq<Part>>,
                              drawn: seq<Edge>, names: set<Node>, nodes: set<Node>, edges: set<Edge>)
  {
    && UnionShape(shape, localUserCounts, parts, subs, names, NodesOf(parts), EdgesOf(parts))
    && Drawn(drawn, NodesOf(parts) - BusinessesOf(parts))
    && nodes == NodesOf(parts) && edges == EdgesOf(parts) + Both(drawn)
    && Layered(nodes, edges, names)
  }

  /**
   * When `LargeNetwork(...)` completes, given the sub-networks its local
   * networks drew: every local network is built, the cross-linker has
   * individuals to draw from when it is asked for links, and no large
   * business asks for more customers than there are individuals.
   */
  ghost predicate RegionFits(numLocal: nat, crossPer: nat, shape: LocalParams, localUserCounts: seq<seq<nat>>,
                             largeUserCounts: seq<nat>, subs: seq<seq<Part>>)
  {
    && |subs| == SubNetworkCount(numLocal) && AllFit(shape, subs, localUserCounts)
    && !(crossPer * numLocal > 0 && Individuals(subs) == {})
    && forall j | 0 <= j < |largeUserCounts| :: largeUserCounts[j] <= |Individuals(subs)|
  }

  /** Every local network's individuals are individuals of the region. */
  lemma {:induction false} IndividualsCovers(subs: seq<seq<Part>>, k: nat)
    requires k < |subs|
    ensures NodesOf(subs[k]) <= Individuals(subs)
  {
    if k < |subs| - 1 {
      IndividualsCovers(subs[..|subs| - 1], k);
    }
  }

  /**
   * A region with no businesses at either tier completes exactly when all
   * its local networks are built and each kept an individual: each one asks
   * its cross-linker for 5 * 50 links among its own individuals.
   */
  lemma UnbusyRegionFits(numLocal: nat, crossPer: nat, shape: LocalParams, localUserCounts: seq<seq<nat>>,
                         subs: seq<seq<Part>>)
    requires forall k | 0 <= k < |localUserCounts| :: localUserCounts[k] == []
    requires |localUserCounts| == SubNetworkCount(numLocal)
    ensures RegionFits(numLocal, crossPer, shape, localUserCounts, [], subs) <==>
              (|subs| == SubNetworkCount(numLocal) && forall k | 0 <= k < |subs| :: NodesOf(subs[k]) != {})
  {
    if |subs| == SubNetworkCount(numLocal) {
      forall k | 0 <= k < |subs|
        ensures !BuildFails(LocalCrossLinks, localUserCounts[k], subs[k]) <==> NodesOf(subs[k]) != {}
      {
        assert localUserCounts[k] == [];
      }
      IndividualsCovers(subs, 0);
    }
  }

  /**
   * With `number_individuals` at most 1, or `average_connections_per_person`
   * 0, no region completes: every sub-network is pruned empty, so the first
   * local network's cross-linker is asked for links among no individuals and
   * `random.randint(0, -1)` raises.
   */
  lemma NoIndividualsNoRegion(numLocal: nat, crossPer: nat, shape: LocalParams, localUserCounts: seq<seq<nat>>,
                              largeUserCounts: seq<nat>, subs: seq<seq<Part>>)
    requires shape.numberIndividuals <= 1 || shape.averageConnections == 0
    requires |subs| >= 1 && AllSocial(subs, shape)
    ensures !RegionFits(numLocal, crossPer, shape, localUserCounts, largeUserCounts, subs)
    ensures RegionError(numLocal, crossPer, shape, localUserCounts, subs) == EmptyRange
  {
    SocialNone(subs[0], shape.numberIndividuals, shape.averageConnections);
    SocialNone(subs[|subs| - 1], shape.numberIndividuals, shape.averageConnections);
  }

  /** What a failing `_link_local_networks` raises: a local network's error, or the cross-linker's. */
  ghost function LinkError(numLocal: nat, shape: LocalParams, localUserCounts: seq<seq<nat>>,
                           subs: seq<seq<Part>>): GenError
    requires |subs| >= 1
  {
    if |subs| == SubNetworkCount(numLocal) && AllFit(shape, subs, localUserCounts) then EmptyRange
    else BuildError(LocalCrossLinks, subs[|subs| - 1])
  }

  /** What a failing `LargeNetwork(...)` raises: the linking error, or the large-business sampler's. */
  ghost function RegionError(numLocal: nat, crossPer: nat, shape: LocalParams, localUserCounts: seq<seq<nat>>,
                             subs: seq<seq<Part>>): GenError
    requires |subs| >= 1
  {
    if && |subs| == SubNetworkCount(numLocal) && AllFit(shape, subs, localUserCounts)
       && !(crossPer * numLocal > 0 && Individuals(subs) == {})
    then SampleLargerThanPopulation
    else LinkError(numLocal, shape, localUserCounts, subs)
  }

  class LargeNetwork {
    /** `self.business_names`: every business, local or large. */
    var businessNames: set<Node>
    /** `self.large_network`. */
    var largeNetwork: DiGraph
    /** The local networks, as they were unioned. */
    ghost var locals: seq<Part>
    /** The realised cross-links, between individuals of any local networks: both ends are drawn from all individuals. */
    ghost var links: seq<Edge>
    /** The large businesses and their customers. */
    ghost var patrons: seq<Patronage>

    /** The shape of a built region, on the graph `largeNetwork`. */
    ghost predicate Valid()
      reads this, largeNetwork
    {
      largeNetwork.Valid() && RegionShape(locals, links, patrons, businessNames, largeNetwork.nodes, largeNetwork.edges)
    }

    /** The state before `_link_local_networks` runs: `self.business_names = set()`. */
    constructor Init()
      ensures businessNames == {} && locals == [] && links == [] && patrons == []
      ensures fresh(largeNetwork)
    {
      businessNames := {};
      // A placeholder: `Create` replaces it with the linked graph before anything reads it.
      largeNetwork := new DiGraph();
      locals, links, patrons := [], [], [];
    }

    /**
     * `LargeNetwork(num_local_networks, num_large_businesses,
     * num_connections_per_local_network, **kwargs)`. Local network `k` is
     * built with `shape` and samples `localUserCounts[k]` customers per local
     * business; large business `j` samples `largeUserCounts[j]` customers.
     * `subs` are the sub-networks the local networks drew, up to the first
     * local network that failed.
     */
    static method Create(ids: IdSource, numLocal: nat, crossPer: nat, shape: LocalParams,
                         localUserCounts: seq<seq<nat>>, largeUserCounts: seq<nat>)
      returns (r: Result<LargeNetwork>, ghost subs: seq<seq<Part>>)
      requires ids.Valid() && |localUserCounts| == SubNetworkCount(numLocal)
      requires forall k | 0 <= k < |localUserCounts| :: |localUserCounts[k]| == shape.numBusinesses
      modifies ids
      ensures ids.Valid()
      ensures LocalsDrawn(SubNetworkCount(numLocal), shape, localUserCounts, subs)
      ensures r.Success? <==> RegionFits(numLocal, crossPer, shape, localUserCounts, largeUserCounts, subs)
      ensures r.Failure? ==> r.error == RegionError(numLocal, crossPer, shape, localUserCounts, subs)
      ensures r.Success? ==> fresh(r.value) && r.value.Valid()
      ensures r.Success? ==> |r.value.locals| == SubNetworkCount(numLocal)
      ensures r.Success? ==> NodesOf(r.value.locals) - BusinessesOf(r.value.locals) == Individuals(subs)
      ensures r.Success? ==> EachHas(r.value.locals, shape.numBusinesses)
      ensures r.Success? ==> |r.value.links| <= crossPer * numLocal
      ensures r.Success? ==> |r.value.patrons| == |largeUserCounts| && |NamesOf(r.value.patrons)| == |largeUserCounts|
      ensures r.Success? ==> NamesOf(r.value.patrons) !! BusinessesOf(r.value.locals)
      ensures r.Success? ==> CustomerCounts(r.value.patrons) == largeUserCounts
      ensures r.Success? ==> forall k | 0 <= k < |r.value.locals| ::
                r.value.locals[k].businesses <= r.value.businessNames
    {
      var network := new LargeNetwork.Init();
      var linked;
      linked, subs := network.LinkLocalNetworks(ids, numLocal, crossPer, shape, localUserCounts);
      if linked.Failure? {
        return Failure(linked.error), subs;
      }
      network.largeNetwork := linked.value;
      var added := network.AddLargeBusinesses(ids, largeUserCounts);
      if added.Failure? {
        return Failure(added.error), subs;
      }
      RegionCovers(network.locals, network.links, network.patrons, network.businessNames,
                   network.largeNetwork.nodes, network.largeNetwork.edges);
      r := Success(network);
    }

    /**
     * `_link_local_networks`: build `SubNetworkCount(numLocal)` local networks,
     * collect their business names and union their graphs, then link
     * `crossPer * numLocal` times with every business excluded. `subs` are
     * the sub-networks the local networks drew, up to the first that failed.
     */
    method LinkLocalNetworks(ids: IdSource, numLocal: nat, crossPer: nat, shape: LocalParams,
                             localUserCounts: seq<seq<nat>>)
      returns (r: Result<DiGraph>, ghost subs: seq<seq<Part>>)
      requires ids.Valid() && |localUserCounts| == SubNetworkCount(numLocal)
      requires forall k | 0 <= k < |localUserCounts| :: |localUserCounts[k]| == shape.numBusinesses
      requires businessNames == {} && locals == [] && patrons == []
      modifies this, ids
      ensures ids.Valid() && old(ids.issued) <= ids.issued
      ensures largeNetwork == old(largeNetwork) && patrons == []
      ensures LocalsDrawn(SubNetworkCount(numLocal), shape, localUserCounts, subs)
      ensures r.Success? <==>
                && |subs| == SubNetworkCount(numLocal) && AllFit(shape, subs, localUserCounts)
                && !(crossPer * numLocal > 0 && Individuals(subs) == {})
      ensures r.Failure? ==> r.error == LinkError(numLocal, shape, localUserCounts, subs)
      ensures r.Success? ==> fresh(r.value) && r.value.Valid()
      ensures r.Success? ==> |locals| == SubNetworkCount(numLocal) && |links| <= crossPer * numLocal
      ensures r.Success? ==> LinkedShape(shape, localUserCounts, locals, subs, links, businessNames,
                                         r.value.nodes, r.value.edges)
      ensures r.Success? ==> NodesOf(locals) <= ids.issued
    {
      var linked, names;
      ghost var parts, drawn;
      linked, names, parts, subs, drawn := UnionAndLink(ids, numLocal, crossPer, shape, localUserCounts);
      if linked.Failure? {
        return Failure(linked.error), subs;
      }
      businessNames := names;
      locals, links := parts, drawn;
      r := linked;
    }

    /**
     * The body of `_link_local_networks` on fresh state: the union loop, then
     * the cross-linker. `parts` are the local networks, `drawn` the realised
     * cross-links.
     */
    static method UnionAndLink(ids: IdSource, numLocal: nat, crossPer: nat, shape: LocalParams,
                               localUserCounts: seq<seq<nat>>)
      returns (r: Result<DiGraph>, names: set<Node>, ghost parts: seq<Part>, ghost subs: seq<seq<Part>>,
               ghost drawn: seq<Edge>)
      requires ids.Valid() && |localUserCounts| == SubNetworkCount(numLocal)
      requires forall k | 0 <= k < |localUserCounts| :: |localUserCounts[k]| == shape.numBusinesses
      modifies ids
      ensures ids.Valid() && old(ids.issued) <= ids.issued
      ensures LocalsDrawn(SubNetworkCount(numLocal), shape, localUserCounts, subs)
      ensures r.Success? <==>
                && |subs| == SubNetworkCount(numLocal) && AllFit(shape, subs, localUserCounts)
                && !(crossPer * numLocal > 0 && Individuals(subs) == {})
      ensures r.Failure? ==> r.error == LinkError(numLocal, shape, localUserCounts, subs)
      ensures r.Success? ==> fresh(r.value) && r.value.Valid()
      ensures r.Success? ==> |parts| == SubNetworkCount(numLocal) && |drawn| <= crossPer * numLocal
      ensures r.Success? ==> LinkedShape(shape, localUserCounts, parts, subs, drawn, names, r.value.nodes, r.value.edges)
      ensures r.Success? ==> NodesOf(parts) <= ids.issued
    {
      var unioned;
      unioned, names, parts, subs := UnionLocalNetworks(ids, SubNetworkCount(numLocal), shape, localUserCounts);
      if unioned.Failure? {
        return Failure(unioned.error), names, parts, subs, [];
      }
      var g := unioned.value;
      ProductOfCounts(crossPer, numLocal);
      r, drawn := CrossLink(g, names, shape, localUserCounts, parts, subs, crossPer * numLocal);
    }

    /**
     * The call `add_random_connections_to_network(large_network, count,
     * exclude_nodes=self.business_names)` on the unioned local networks.
     */
    static method CrossLink(g: DiGraph, names: set<Node>, ghost shape: LocalParams, ghost localUserCounts: seq<seq<nat>>,
                            ghost parts: seq<Part>, ghost subs: seq<seq<Part>>, count: nat)
      returns (r: Result<DiGraph>, ghost links: seq<Edge>)
      requires g.Valid() && UnionShape(shape, localUserCounts, parts, subs, names, g.nodes, g.edges)
      modifies g
      ensures r.Failure? <==> count > 0 && Individuals(subs) == {}
      ensures r.Failure? ==> r.error == EmptyRange
      ensures r.Success? ==> r.value == g && g.Valid() && |links| <= count
      ensures r.Success? ==> LinkedShape(shape, localUserCounts, parts, subs, links, names, g.nodes, g.edges)
    {
      ghost var edges := g.edges;
      assert EligiblePool(g.nodes, Some(names)) == Individuals(subs);
      r, links := AddRandomConnections(g, count, Some(names));
      if r.Success? {
        LinkKeepsLayered(g.nodes, edges, names, links);
      }
    }

    /**
     * The union loop of `_link_local_networks`, with
     * `self.business_names |= local_network.get_businesses()` at each step.
     * It stops at the first local network that fails; `subs` are the
     * sub-networks drawn by the local networks built so far.
     */
    static method UnionLocalNetworks(ids: IdSource, count: nat, shape: LocalParams, localUserCounts: seq<seq<nat>>)
      returns (r: Result<DiGraph>, names: set<Node>, ghost parts: seq<Part>, ghost subs: seq<seq<Part>>)
      requires ids.Valid() && count >= 1 && |localUserCounts| == count
      requires forall k | 0 <= k < count :: |localUserCounts[k]| == shape.numBusinesses
      modifies ids
      ensures ids.Valid() && old(ids.issued) <= ids.issued
      ensures LocalsDrawn(count, shape, localUserCounts, subs)
      ensures r.Success? <==> |subs| == count && AllFit(shape, subs, localUserCounts)
      ensures r.Failure? ==> r.error == BuildError(LocalCrossLinks, subs[|subs| - 1])
      ensures r.Success? ==> fresh(r.value) && r.value.Valid() && |parts| == count
      ensures r.Success? ==> UnionShape(shape, localUserCounts, parts, subs, names, r.value.nodes, r.value.edges)
      ensures r.Success? ==> NodesOf(parts) <= ids.issued - old(ids.issued)
    {
      var first;
      ghost var sub;
      first, names, parts, sub := FirstLocal(ids, shape, localUserCounts);
      AllSocialAppend([], sub, shape);
      assert [] + [sub] == [sub];
      subs := [sub];
      if first.Failure? {
        return Failure(first.error), names, parts, subs;
      }
      var g := first.value;
      for i := 1 to count
        invariant ids.Valid() && old(ids.issued) <= ids.issued
        invariant fresh(g) && g.Valid() && |subs| == i
        invariant UnionShape(shape, localUserCounts, parts, subs, names, g.nodes, g.edges)
        invariant NodesOf(parts) <= ids.issued - old(ids.issued)
      {
        var next, grown;
        ghost var parts', subs';
        next, grown, parts', subs' := GrowUnion(ids, g, names, parts, subs, i, shape, localUserCounts, old(ids.issued));
        if next.Failure? {
          return Failure(next.error), names, parts, subs';
        }
        g, names, parts, subs := next.value, grown, parts', subs';
      }
      r := Success(g);
    }

    /**
     * The local network built before the loop: its graph is used as is and
     * its businesses start `business_names`. `sub` are its sub-networks.
     */
    static method FirstLocal(ids: IdSource, shape: LocalParams, localUserCounts: seq<seq<nat>>)
      returns (r: Result<DiGraph>, names: set<Node>, ghost parts: seq<Part>, ghost sub: seq<Part>)
      requires ids.Valid() && |localUserCounts| >= 1 && |localUserCounts[0]| == shape.numBusinesses
      modifies ids
      ensures ids.Valid() && old(ids.issued) <= ids.issued
      ensures LocalSubs(sub, shape)
      ensures r.Failure? <==> BuildFails(LocalCrossLinks, localUserCounts[0], sub)
      ensures r.Failure? ==> r.error == BuildError(LocalCrossLinks, sub)
      ensures r.Success? ==> fresh(r.value) && r.value.Valid() && |parts| == 1
      ensures r.Success? ==> UnionShape(shape, localUserCounts, parts, [sub], names, r.value.nodes, r.value.edges)
      ensures r.Success? ==> NodesOf(parts) <= ids.issued - old(ids.issued)
    {
      var first;
      first, sub := BuildLocal(ids, shape, localUserCounts[0]);
      if first.Failure? {
        return Failure(first.error), {}, [], sub;
      }
      var g;
      g, names, parts := StartUnion(first.value);
      UnionStarts(shape, localUserCounts, parts, sub, names, g.nodes, g.edges);
      r := Success(g);
    }

    /** The graph and the business names of the first local network. */
    static method StartUnion(local: LocalNetwork) returns (g: DiGraph, names: set<Node>, ghost parts: seq<Part>)
      requires local.Valid()
      ensures g == local.graph && g.Valid()
      ensures |parts| == 1 && Disjoint(parts) && names == BusinessesOf(parts) && parts[0] == LocalPart(local)
      ensures NodesOf(parts) - BusinessesOf(parts) == NodesOf(local.parts)
      ensures g.nodes == NodesOf(parts) && g.edges == EdgesOf(parts) && Layered(g.nodes, g.edges, names)
    {
      g := local.GetGraph();
      names := local.GetBusinesses();
      ghost var p := LocalPart(local);
      PartsAppend([], p);
      DisjointAppend([], p);
      ShapeIndividuals(local.parts, local.links, local.patrons, local.businesses, g.nodes, g.edges);
      parts := [p];
    }

    /**
     * One pass of the loop, on the loop's record: build local network `i`
     * and union it in. `subs'` extends `subs` by the sub-networks the new
     * local network drew; `start` is what had been issued before the loop.
     */
    static method GrowUnion(ids: IdSource, g: DiGraph, names: set<Node>, ghost parts: seq<Part>,
                            ghost subs: seq<seq<Part>>, i: nat, shape: LocalParams, localUserCounts: seq<seq<nat>>,
                            ghost start: set<Node>)
      returns (r: Result<DiGraph>, names': set<Node>, ghost parts': seq<Part>, ghost subs': seq<seq<Part>>)
      requires ids.Valid() && g.Valid() && i == |subs| < |localUserCounts|
      requires |localUserCounts[i]| == shape.numBusinesses
      requires UnionShape(shape, localUserCounts, parts, subs, names, g.nodes, g.edges)
      requires start <= ids.issued && NodesOf(parts) <= ids.issued - start
      modifies ids
      ensures ids.Valid() && old(ids.issued) <= ids.issued
      ensures |subs'| == |subs| + 1 && subs'[..|subs|] == subs && AllSocial(subs', shape)
      ensures r.Failure? <==> BuildFails(LocalCrossLinks, localUserCounts[i], subs'[i])
      ensures r.Failure? ==> r.error == BuildError(LocalCrossLinks, subs'[i])
      ensures r.Success? ==> fresh(r.value) && r.value.Valid()
      ensures r.Success? ==> UnionShape(shape, localUserCounts, parts', subs', names', r.value.nodes, r.value.edges)
      ensures r.Success? ==> NodesOf(parts') <= ids.issued - start
    {
      ghost var q, sub;
      r, names', q, sub := NextLocal(ids, g, names, parts, shape, localUserCounts[i]);
      subs', parts' := subs + [sub], parts + [q];
      AllSocialAppend(subs, sub, shape);
      assert subs'[..i] == subs && subs'[i] == sub;
      if r.Success? {
        UnionGrows(shape, localUserCounts, parts, subs, names, q, sub, names', r.value.nodes, r.value.edges);
      }
    }

    /**
     * One pass of the loop: build another local network and union it in.
     * `sub` are the sub-networks the new local network drew.
     */
    static method NextLocal(ids: IdSource, g: DiGraph, names: set<Node>, ghost parts: seq<Part>,
                            shape: LocalParams, userCounts: seq<nat>)
      returns (r: Result<DiGraph>, names': set<Node>, ghost q: Part, ghost sub: seq<Part>)
      requires ids.Valid() && g.Valid()
      requires Disjoint(parts) && names == BusinessesOf(parts) && NodesOf(parts) <= ids.issued
      requires g.nodes == NodesOf(parts) && g.edges == EdgesOf(parts) && Layered(g.nodes, g.edges, names)
      modifies ids
      ensures ids.Valid() && old(ids.issued) <= ids.issued
      ensures LocalSubs(sub, shape)
      ensures r.Failure? <==> BuildFails(LocalCrossLinks, userCounts, sub)
      ensures r.Failure? ==> r.error == BuildError(LocalCrossLinks, sub)
      ensures r.Success? ==> fresh(r.value) && r.value.Valid()
      ensures r.Success? ==> Disjoint(parts + [q]) && names' == BusinessesOf(parts + [q])
      ensures r.Success? ==> NodesOf(parts + [q]) == NodesOf(parts) + q.nodes
      ensures r.Success? ==> NodesOf(parts + [q]) - BusinessesOf(parts + [q])
                               == (NodesOf(parts) - BusinessesOf(parts)) + NodesOf(sub)
      ensures r.Success? ==> |q.businesses| == |userCounts|
      ensures r.Success? ==> q.nodes <= ids.issued - old(ids.issued)
      ensures r.Success? ==> r.value.nodes == NodesOf(parts + [q]) && r.value.edges == EdgesOf(parts + [q])
      ensures r.Success? ==> Layered(r.value.nodes, r.value.edges, names')
    {
      var next;
      next, sub := BuildLocal(ids, shape, userCounts);
      if next.Failure? {
        return Failure(next.error), names, Part({}, {}, {}), sub;
      }
      var h;
      h, names', q := UnionNext(g, names, parts, next.value);
      r := Success(h);
    }

    /**
     * `LocalNetwork(**kwargs)`, with its own business popularity draws. It
     * fails exactly as `LocalNetwork.Build` does on the sub-networks `sub`.
     */
    static method BuildLocal(ids: IdSource, shape: LocalParams, userCounts: seq<nat>)
      returns (r: Result<LocalNetwork>, ghost sub: seq<Part>)
      requires ids.Valid()
      modifies ids
      ensures ids.Valid() && old(ids.issued) <= ids.issued
      ensures |sub| == DefaultSocialNetworks && Social(sub, shape.numberIndividuals, shape.averageConnections)
      ensures r.Failure? <==> BuildFails(LocalCrossLinks, userCounts, sub)
      ensures r.Failure? ==> r.error == BuildError(LocalCrossLinks, sub)
      ensures r.Success? ==> fresh(r.value) && fresh(r.value.graph) && r.value.Built(sub, userCounts)
      ensures r.Success? ==> r.value.graph.nodes <= ids.issued - old(ids.issued)
    {
      r, sub := LocalNetwork.Build(ids, DefaultSocialNetworks, DefaultConnectionsPerLocalNetwork, userCounts,
                                   shape.numberIndividuals, shape.averageConnections);
    }

    /** One pass of the union loop: collect the business names, then `nx.union`. */
    static method UnionNext(g: DiGraph, names: set<Node>, ghost parts: seq<Part>, local: LocalNetwork)
      returns (h: DiGraph, names': set<Node>, ghost q: Part)
      requires g.Valid() && local.Valid()
      requires Disjoint(parts) && names == BusinessesOf(parts)
      requires g.nodes == NodesOf(parts) && g.edges == EdgesOf(parts) && Layered(g.nodes, g.edges, names)
      requires Layered(local.graph.nodes, local.graph.edges, local.businesses)
      requires local.graph.nodes !! g.nodes
      ensures fresh(h) && h.Valid()
      ensures q == LocalPart(local)
      ensures Disjoint(parts + [q]) && names' == BusinessesOf(parts + [q])
      ensures NodesOf(parts + [q]) == NodesOf(parts) + q.nodes
      ensures NodesOf(parts + [q]) - BusinessesOf(parts + [q]) == (NodesOf(parts) - BusinessesOf(parts)) + NodesOf(local.parts)
      ensures h.nodes == NodesOf(parts + [q]) && h.edges == EdgesOf(parts + [q])
      ensures Layered(h.nodes, h.edges, names')
    {
      q := LocalPart(local);
      names' := names + local.GetBusinesses();
      UnionKeepsLayered(g.nodes, g.edges, names, q.nodes, q.edges, q.businesses);
      h := DiGraph.Union(g, local.GetGraph());
      PartsAppend(parts, q);
      DisjointAppend(parts, q);
      ShapeIndividuals(local.parts, local.links, local.patrons, local.businesses, q.nodes, q.edges);
      IndividualsStep(NodesOf(parts), BusinessesOf(parts), q.nodes, q.businesses);
    }

    /**
     * `_add_large_businesses`: the customer pool is every node that is not a
     * business, taken once before any large business is added.
     */
    method AddLargeBusinesses(ids: IdSource, userCounts: seq<nat>) returns (r: Result<()>)
      requires ids.Valid() && largeNetwork.Valid() && largeNetwork.nodes <= ids.issued
      requires Disjoint(locals) && patrons == [] && businessNames == BusinessesOf(locals)
      requires Drawn(links, NodesOf(locals) - BusinessesOf(locals))
      requires largeNetwork.nodes == NodesOf(locals)
      requires largeNetwork.edges == EdgesOf(locals) + Both(links)
      requires Layered(largeNetwork.nodes, largeNetwork.edges, businessNames)
      modifies this, largeNetwork, ids
      ensures ids.Valid() && largeNetwork == old(largeNetwork) && locals == old(locals) && links == old(links)
      ensures r.Failure? <==> exists i | 0 <= i < |userCounts| :: userCounts[i] > |NodesOf(locals) - BusinessesOf(locals)|
      ensures r.Failure? ==> r.error == SampleLargerThanPopulation
      ensures r.Success? ==> Valid() && locals == old(locals) && links == old(links)
      ensures r.Success? ==> businessNames == old(businessNames) + NamesOf(patrons)
      ensures r.Success? ==> |NamesOf(patrons)| == |userCounts| && NamesOf(patrons) !! old(businessNames)
      ensures r.Success? ==> |patrons| == |userCounts|
      ensures r.Success? ==> CustomerCounts(patrons) == userCounts
    {
      var named, injected := InjectBusinesses(ids, largeNetwork, businessNames, userCounts);
      if named.Failure? {
        return Failure(named.error);
      }
      assert RegionShape(locals, links, injected, businessNames + named.value, largeNetwork.nodes, largeNetwork.edges);
      businessNames := businessNames + named.value;
      patrons := injected;
      r := Success(());
    }

    /** The finished graph: layered, with every business, local or large, a sink. */
    function GetGraph(): (g: DiGraph)
      reads this, largeNetwork
      requires Valid()
      ensures g == largeNetwork
      ensures Layered(g.nodes, g.edges, businessNames)
    {
      largeNetwork
    }
  }
}
