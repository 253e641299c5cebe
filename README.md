# transaction-network: a verified model of the graph generator

The transaction-network repository generates a synthetic payment graph in three tiers, using networkx `DiGraph`s.

- **Social sub-network** (`SocialSubNetwork`). Fresh individuals are linked at random by reciprocal payment edges. Individuals who drew no link are pruned.
- **Local network** (`LocalNetwork`). Several sub-networks are unioned, a few random links are drawn between individuals of all of them (both ends from the whole union, so a link may stay inside one sub-network), and then local businesses are injected. Each business is a new node that receives one edge from every customer sampled for it.
- **Region** (`LargeNetwork`). Several local networks are unioned and their business sets collected. Individuals are linked at random, both ends drawn from all individuals of all local networks, with every business excluded. Then large businesses are injected whose customers are individuals only.

All three tiers use one random linker, `add_random_connections_to_network`.

The Dafny project models this generator as imperative code. A graph is a class `DiGraph` with a node set and an edge set, and the methods mutate it in place as the Python code does. The tiers are classes built by methods that return a `Result`. On the arguments the model accepts, the code can raise two exceptions, and both become `Failure` values:

- `random.randint(0, -1)` on an empty linking pool becomes `EmptyRange`;
- `random.sample` asked for more users than the pool holds becomes `SampleLargerThanPopulation`.

Randomness is modelled as a nondeterministic choice (`:|`), so every contract holds for every random outcome:
- the two `randint` draws of the linker;
- the order of `list(set)`;
- the users `random.sample` picks.

The popularity of each business is rounded from a clipped normal draw in the code. Here it is a supplied count of users, one per business (`userCounts`). `uuid.uuid4()` becomes an `IdSource` that hands out decimal strings of a counter. Its `issued` set, with an injectivity lemma, makes names fresh by construction.

What is proved, tier by tier:

- **Linker.**
  - The pool is the graph's nodes minus the exclusions.
  - Every realised draw joins two different pool nodes and adds the edge in both directions.
  - Nodes are unchanged and edges only grow.
  - There are at most `count` draws, and none at all when the pool has at most one node.
  - The linker fails exactly when `count > 0` and the pool is empty.
- **Social sub-network.**
  - Exactly `number_individuals` fresh nodes are created before linking.
  - After pruning, the nodes are exactly the endpoints of the realised draws, none of them isolated.
  - The edges are symmetric and loop-free.
  - With at most one individual, or no connections per person, nothing survives pruning.
- **Local network.**
  - It always builds at least one sub-network; the sub-networks are pairwise disjoint.
  - The customer pool is taken before any business is added.
  - Each business is a fresh sink with exactly its sampled customers as in-neighbours.
  - The business set has one name per business.
  - No edge between existing nodes changes.
  - It fails exactly when the cross-linker is asked for a positive count of links over an empty pool, or a business asks for more users than there are individuals.
- **Region.**
  - `business_names` is the union of every local business set plus the large businesses, and grows by exactly one name per large business.
  - Cross-links never touch a business.
  - After construction every business, local or large, has no outgoing edge.
  - Each large business's in-neighbours are exactly its sampled customers, all of them individuals.
  - Every local network of a region builds its default 50 sub-networks, since the sub-network count cannot be passed through `**kwargs`.
  - With `number_individuals` at most 1 or `average_connections_per_person` 0, no region is ever built: every sub-network is pruned empty and the first local network's cross-linker raises.

All tiers share one shape predicate, `Graphs.Layered`:
- every edge joins nodes of the graph;
- there are no self-loops;
- businesses are sinks;
- every edge between individuals has its reverse.

The predicate is preserved by the linker, by disjoint union and by business injection.

`src/local_network.py` and `src/local_networks.py` define the same `LocalNetwork` class. They differ only in names: the cross-link keyword is `num_connections_per_social_network` in the first and `num_connections_per_local_network` in the second, and the attributes are `_local_network`/`_local_business_names` against `local_network`/`local_business_names`; `src/local_network.py` also carries type hints and docstrings. The model has one `LocalNetworks.LocalNetwork`, and the table cites `src/local_networks.py`. The corresponding spans of `src/local_network.py` are: constructor 19-39, `_link_social_networks` 41-57, `_add_local_businesses` 59-106, `get_graph` 108-112 and `get_businesses` 114-118. `src/national_network.py` imports `src/local_networks.py`.

## Model

| member | source | states |
|---|---|---|
| Graphs.DiGraph.constructor | src/social_network.py:38 | `nx.DiGraph()` is the empty graph |
| Graphs.DiGraph.AddNode | src/social_network.py:44 | `add_node` adds one node and no edge; adding a present node changes nothing |
| Graphs.DiGraph.AddEdge | src/utils.py:17-18 | `add_edge` adds the edge once, and its endpoints if missing |
| Graphs.DiGraph.RemoveNodesFrom | src/social_network.py:52 | `remove_nodes_from` drops the nodes and exactly the edges incident to them |
| Graphs.DiGraph.Isolates | src/social_network.py:52 | `nx.isolates` gives exactly the nodes with no incident edge, in or out |
| Graphs.DiGraph.RemoveIsolates | src/social_network.py:52 | pruning removes exactly the isolates, keeps every edge, and leaves no isolate |
| Graphs.PrunedGraph | src/social_network.py:52 | removing the isolates keeps every edge and every node with an edge, and leaves no isolate behind |
| Graphs.DiGraph.Union | src/local_networks.py:32-34 | `nx.union` of node-disjoint graphs has exactly both node sets and both edge sets |
| Graphs.UnionKeepsLayered | src/national_network.py:64-66 | the union of two node-disjoint layered graphs is layered, with the union of their business sets |
| Graphs.DisjointPairwise | src/local_networks.py:30-34 | the unioned sub-networks are pairwise node-disjoint |
| Graphs.NodesOfCovers | src/local_networks.py:30-34 | every unioned part's nodes are in the union |
| Graphs.BusinessesOfCovers | src/national_network.py:59-64 | every local business set is contained in the collected business names |
| Ids.DecimalInjective | src/social_network.py:44 | different counter values give different names, so identifiers are unique |
| Ids.IdSource.Fresh | src/social_network.py:44 | each identifier is new: not issued before, and then recorded as issued |
| Sampling.ListOf | src/utils.py:11 | `list(set)` lists every element exactly once |
| Sampling.Sample | src/local_networks.py:62 | `random.sample` fails exactly when `k` exceeds the population; otherwise it gives `k` distinct members |
| Sampling.DistinctWithin | src/local_networks.py:61-62 | distinct members of a pool are at most as many as the pool |
| Utils.EligiblePool | src/utils.py:8-11 | the pool is the graph's nodes minus the exclusions; `None` excludes nothing |
| Utils.AddRandomConnections | src/utils.py:5-20 | fails exactly on `count > 0` with an empty pool, before any edge; otherwise returns the same graph whose nodes are unchanged and whose new edges are both directions of at most `count` draws of two different pool nodes |
| Utils.DrawPairs | src/utils.py:14-18 | the draw loop adds both directions of every draw with two different indices, and nothing else |
| Utils.AddBothWays | src/utils.py:16-18 | one draw adds the edge and its reverse, and no node |
| Utils.BothMembers | src/utils.py:16-18 | an edge is added exactly when it is a draw or the reverse of one |
| Utils.BothSymmetric | src/utils.py:16-18 | the added edges are symmetric, loop-free and inside the pool |
| Utils.BothSize | src/utils.py:14-18 | `count` draws add at most `2 * count` directed edges |
| Utils.SmallPoolDrawsNothing | src/utils.py:12-16 | with at most one eligible node no draw succeeds and no edge is added |
| Utils.EndpointsWithin | src/utils.py:11-18 | the linker touches only pool nodes, so excluded nodes get no edge |
| Utils.TouchesBoth | src/social_network.py:49-52 | a node has an added edge exactly when some draw names it |
| Utils.LinkKeepsLayered | src/national_network.py:69-73 | linking individuals with the businesses excluded keeps a layered graph layered |
| SocialNetwork.SocialSubNetwork.constructor | src/social_network.py:13-26 | the sub-network holds the pruned graph of `number_individuals` fresh individuals and at most `number_individuals * average_connections_per_person` draws |
| SocialNetwork.SocialSubNetwork.CreateNetwork | src/social_network.py:28-54 | `create_network`: the graph's nodes are exactly the created individuals that some draw names, and its edges are both directions of each draw |
| SocialNetwork.SocialSubNetwork.AddIndividuals | src/social_network.py:38-44 | exactly `number_individuals` distinct fresh nodes and no edge exist before linking |
| SocialNetwork.SocialSubNetwork.AddIndividual | src/social_network.py:44 | each pass adds one new node and records its identifier |
| SocialNetwork.SocialSubNetwork.PruneIsolates | src/social_network.py:52 | pruning keeps the edges and leaves exactly the endpoints of the draws |
| SocialNetwork.PrunedToEndpoints | src/social_network.py:46-52 | a created individual survives pruning exactly when some draw names it |
| SocialNetwork.EndpointsTouched | src/social_network.py:52 | no survivor of pruning is isolated |
| SocialNetwork.PrunedShape | src/social_network.py:49-52 | the pruned sub-network is layered with no businesses: symmetric, loop-free edges between its nodes |
| SocialNetwork.NoIsolates | src/social_network.py:52 | every node of a built sub-network has an incident edge |
| SocialNetwork.SocialSubNetwork.GetGraph | src/social_network.py:56-60 | `get_graph` returns the constructor's graph, which is layered and holds only created individuals |
| Businesses.AttachCustomers | src/local_networks.py:68-69 | the inner loop adds exactly the edges from each customer to the business |
| Businesses.AddBusiness | src/local_networks.py:61-69 | one pass fails, with nothing changed, exactly when `num_users` exceeds the pool; otherwise it adds one fresh business node and edges from `num_users` distinct pool members to it |
| Businesses.AddNextBusiness | src/local_networks.py:60-69 | one pass keeps the loop's record: businesses new and distinct, names issued, nodes and edges as recorded |
| Businesses.AddBusinesses | src/local_networks.py:60-71 | the loop fails exactly when some count exceeds the pool; otherwise it returns one fresh name per count, each business with exactly its count of distinct pool customers, and changes the graph by exactly those nodes and edges |
| Businesses.InjectBusinesses | src/national_network.py:86-114 | the pool is every node but the businesses, taken once; the new businesses are sinks and the graph stays layered |
| Businesses.CountsFit | src/national_network.py:105-107 | no business samples more customers than the pool holds |
| Businesses.NamesCount | src/local_networks.py:63-64 | the business set has one name per business, none of them an earlier node |
| Businesses.AttachedEnds | src/local_networks.py:66-69 | every injected edge runs from a pool customer to an injected business |
| Businesses.AttachKeepsLayered | src/local_networks.py:63-69 | injecting businesses whose customers are individuals keeps the graph layered, with the new names as sinks |
| Businesses.AttachedInto | src/local_networks.py:66-69 | the injected edges into a business come from exactly the customers sampled for it |
| Businesses.InNeighboursExact | src/local_networks.py:63-69 | after injection into a well-formed graph, the in-neighbours of each injected business are exactly its sampled customers |
| Businesses.AttachKeepsOldEdges | src/local_networks.py:66-69 | injection never adds an edge between two nodes that were already there |
| LocalNetworks.SubNetworkCount | src/local_networks.py:30-34 | at least one sub-network is built, and exactly `num_social_networks` when that is positive |
| LocalNetworks.SocialEach | src/local_networks.py:30-34 | every unioned sub-network is as `create_network` leaves it: no businesses, at most `number_individuals` nodes, layered, no isolate, and at most two edges per draw of the `number_individuals * average_connections_per_person` asked for |
| LocalNetworks.EmptySubNetwork | src/social_network.py:41-52 | a built sub-network of at most one individual, or with no connections per person, is empty after pruning: a lone individual can only draw itself, and without draws every individual is isolated |
| LocalNetworks.SocialNone | src/local_networks.py:30-34 | sub-networks of at most one individual each, or of no connections per person, contribute no node to the union |
| LocalNetworks.LonelyLocalFails | src/local_networks.py:30-38 | a local network whose sub-networks have at most one individual each, or no connections per person, always fails when it asks for cross-links, with the empty-range error of `random.randint(0, -1)` |
| LocalNetworks.InjectedShape | src/local_networks.py:60-69 | injecting businesses whose customers are the individuals of the linked sub-networks yields a local network: the new names are sinks, the graph stays layered, and the sub-networks and cross-links are kept |
| LocalNetworks.LocalInNeighbours | src/local_networks.py:60-69 | in a built local network, the nodes with an edge into a local business are exactly its sampled customers, all of them individuals |
| LocalNetworks.ShapeIndividuals | src/national_network.py:86 | the nodes of a built local network that are not its businesses are exactly the nodes of its sub-networks |
| LocalNetworks.LocalNetwork.Assemble | src/local_networks.py:21-25 | the constructed object keeps the linked graph and the business set |
| LocalNetworks.LocalNetwork.Build | src/local_networks.py:13-25 | builds a valid local network from `SubNetworkCount` disjoint sub-networks. Each sub-network is as `create_network` leaves it (`Social`). It fails exactly when the cross-linker is asked for links among no individuals or a count exceeds the individuals (`BuildFails`), and it then raises the linker's error first (`BuildError`). On success there are at most `crossPer * num_social_networks` cross-links and one business per count |
| LocalNetworks.LocalNetwork.LinkSocialNetworks | src/local_networks.py:27-40 | unions `SubNetworkCount` disjoint fresh sub-networks and asks for `crossPer * num_social_networks` links with no exclusions, failing exactly on an empty union with a positive count |
| LocalNetworks.LocalNetwork.UnionSocialNetworks | src/local_networks.py:30-34 | the union loop keeps exactly the nodes and edges of all sub-networks, pairwise disjoint, and the union layered |
| LocalNetworks.LocalNetwork.UnionFirst | src/local_networks.py:30 | the first sub-network's pruned graph starts the union: one fresh part, layered, with no businesses |
| LocalNetworks.LocalNetwork.UnionNext | src/local_networks.py:31-34 | one union pass adds one fresh disjoint sub-network and keeps the union layered |
| LocalNetworks.LocalNetwork.SocialPart | src/local_networks.py:30-34 | a built sub-network contributes a layered part without businesses, with no isolate, with at most `number_individuals` nodes and at most two edges per realised draw |
| LocalNetworks.LocalNetwork.AddLocalBusinesses | src/local_networks.py:42-71 | the pool is the node list before injection; fails exactly when a count exceeds it; otherwise the network keeps the same graph, now layered with one fresh sink per count |
| LocalNetworks.LocalNetwork.GetGraph | src/local_networks.py:73-74 | `get_graph` returns the built graph, layered with the local businesses as sinks |
| LocalNetworks.LocalNetwork.GetBusinesses | src/local_networks.py:76-77 | `get_businesses` returns one name per business, each a graph node with no outgoing edge |
| NationalNetwork.RegionCovers | src/national_network.py:59-66 | `business_names` contains every local business set, and the region contains every local network's nodes |
| NationalNetwork.EachHasAt | src/national_network.py:56-64 | every local network of a region has the same `num_local_businesses` businesses |
| NationalNetwork.UnionStarts | src/national_network.py:56-59 | the first complete local network starts the union: one disjoint part, its businesses collected, its individuals those of its sub-networks |
| NationalNetwork.UnionGrows | src/national_network.py:60-66 | unioning in another complete local network keeps the union disjoint and layered, collects its businesses and adds its individuals |
| NationalNetwork.UnbusyRegionFits | src/national_network.py:55-73 | a region with no businesses at either tier completes exactly when every local network is built and each kept an individual, since each asks for 5 * 50 cross-links among its own individuals |
| NationalNetwork.NoIndividualsNoRegion | src/local_networks.py:30-38 | with `number_individuals` at most 1 or `average_connections_per_person` 0, every sub-network is pruned empty, so no region completes and it fails with the empty-range error of `random.randint(0, -1)` |
| NationalNetwork.RegionInNeighbours | src/national_network.py:86-114 | in a built region, the nodes with an edge into a large business are exactly its sampled customers, all of them individuals |
| NationalNetwork.LargeNetwork.Init | src/national_network.py:33 | the region starts with no business names |
| NationalNetwork.LargeNetwork.Create | src/national_network.py:18-39 | completes exactly when `RegionFits` holds on the sub-networks drawn: every local network, each of 50 sub-networks with 250 cross-links asked for, is built, the cross-linker has individuals when asked for links, and no large business asks for more customers than there are individuals. A failure raises `RegionError`, which names the first step that fails. A built region is valid: disjoint local networks with `num_local_businesses` businesses each, cross-links that avoid businesses, large businesses with exactly their counts of customers, and every business a sink |
| NationalNetwork.LargeNetwork.LinkLocalNetworks | src/national_network.py:41-75 | builds local networks up to the first that fails. Each local network has 50 sub-networks and asks for 250 cross-links. It succeeds exactly when all `SubNetworkCount(num_local_networks)` are built and the individuals are non-empty whenever `crossPer * num_local_networks > 0`. It then collects their businesses, unions them disjointly and links individuals only |
| NationalNetwork.LargeNetwork.UnionAndLink | src/national_network.py:55-73 | the union loop, then the cross-linker with every business excluded: local networks are built up to the first that fails, each drawing its 50 sub-networks (`LocalsDrawn`); it succeeds exactly when all are built and, when links are asked for, some individual exists, and fails with `LinkError` otherwise; on success the graph is the disjoint union of the local networks plus both directions of at most `crossPer * num_local_networks` draws between individuals, layered with the collected business names as sinks (`LinkedShape`) |
| NationalNetwork.LargeNetwork.CrossLink | src/national_network.py:69-73 | the cross-linker with every business excluded fails exactly on a positive count with no individuals; otherwise it adds draws between individuals and keeps the region layered |
| NationalNetwork.LargeNetwork.UnionLocalNetworks | src/national_network.py:55-66 | the loop stops at the first local network that fails and succeeds exactly when every one is built. It keeps exactly the nodes, edges and business names of all local networks, pairwise disjoint and layered, and the individuals are those of all their sub-networks |
| NationalNetwork.LargeNetwork.FirstLocal | src/national_network.py:56-59 | fails exactly as its `LocalNetwork` does; otherwise its graph and businesses start the union |
| NationalNetwork.LargeNetwork.StartUnion | src/national_network.py:57-59 | the starting union is that local network's layered graph and business names, and its individuals are its sub-networks' nodes |
| NationalNetwork.LargeNetwork.GrowUnion | src/national_network.py:60-66 | one pass of the loop keeps the union's record: it fails exactly as the new local network does; otherwise the union stays disjoint and layered, with the new businesses collected and the new individuals added |
| NationalNetwork.LargeNetwork.NextLocal | src/national_network.py:62-66 | fails exactly as its `LocalNetwork` does; otherwise it unions a fresh local network in disjointly and adds its individuals |
| NationalNetwork.LargeNetwork.BuildLocal | src/national_network.py:56 | `LocalNetwork(**kwargs)` builds its default 50 sub-networks and asks for 5 * 50 cross-links; it fails exactly when `BuildFails` holds on its sub-networks, with `BuildError`; otherwise it is a valid local network of fresh nodes, with one business per count |
| NationalNetwork.LargeNetwork.UnionNext | src/national_network.py:64-66 | one pass adds the local businesses to `business_names` and the graph by `nx.union`, keeping it layered and adding the new individuals |
| NationalNetwork.LargeNetwork.AddLargeBusinesses | src/national_network.py:77-114 | customers are the nodes that are not businesses; fails exactly when a count exceeds them; otherwise `business_names` grows by exactly one new name per count and the region is valid |
| NationalNetwork.LargeNetwork.GetGraph | src/national_network.py:35-39 | the finished `large_network` is layered, with every business a sink |

## Left out

- Popularity draws: the normal sample, `np.clip` and `round(fraction * num_nodes)` are floating point, so each business's user count is a supplied `nat`. `Config` is not part of this model. Whether the clip bounds keep a count within the pool is therefore open, and over-large counts are modelled as the sampling failure.
- Randomness: the distribution of `randint`, `random.sample` and `list(set)` is not modelled, only that some choice is made. No statistical property is stated.
- `uuid.uuid4()` is replaced by fresh decimal names from a counter. The code relies on uuid4 collisions never happening; the model has none by construction.
- `tqdm` progress output is left out.
- networkx is modelled only as far as the generator uses it: add node, add edge, remove nodes, isolates and `nx.union`. `nx.union` raises on shared nodes; here that is a precondition, met because every node is fresh.
- Integer arguments are `nat`; negative counts are not modelled. In the code some of them give empty loops (`range`), and others raise: `np.random.normal` rejects a negative business count, and a negative `number_individuals` times a negative `average_connections_per_person` asks the linker for links among no individuals.
- `**kwargs` are modelled as the parameters they reach. For a region these are `LocalParams`: the local business count, the individuals per sub-network and the connections per person. `LargeNetwork` itself consumes `num_connections_per_local_network`, so its local networks always use their default of 5 (`DefaultConnectionsPerLocalNetwork`). `_link_local_networks` (src/national_network.py:41-42) takes `num_social_networks` and `num_connections_per_network` itself, so its local networks always build their default 50 sub-networks (`DefaultSocialNetworks`) and ask for 250 cross-links (`LocalCrossLinks`).
- `TypeError`: `LargeNetwork(...)` raises it when its `**kwargs` carry `num_social_networks` or `num_connections_per_network`, which clash with those parameters of `_link_local_networks`. The model has no such keyword, so this error has no counterpart.
- Each local network of a region draws its own popularity counts. They are supplied as `localUserCounts`, one sequence per local network, each of length `num_local_businesses`.
- The source adds each large business name to `business_names` inside the loop. The model adds the loop's names after it. The two agree whenever the loop finishes, and an exception discards the object.
- On a failure the partially changed graph is not described beyond what each contract states. In the code the exception leaves no usable object.
- No edge-count cap: `src/social_network.py:46` passes `number_individuals * average_connections_per_person` to the linker uncapped, and so does the model.
- Whether a tier fails depends on random draws, such as a sub-network that ends up empty after pruning. The failure conditions are therefore stated over the sub-networks that were drawn, which are ghost outputs (`parts`, `subs`), not over the arguments alone. Each drawn sub-network carries what the social tier proves about it (`SubNetwork`: layered, no isolate, at most `number_individuals` nodes and two edges per draw asked for), so failures that follow from the arguments alone are derived as lemmas (`LonelyLocalFails`, `NoIndividualsNoRegion`).
