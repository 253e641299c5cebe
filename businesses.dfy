/**
 * The business-injection loop shared by `LocalNetwork._add_local_businesses`
 * and `LargeNetwork._add_large_businesses`: for each business, sample its
 * customers from a pool fixed beforehand, create one fresh node and add an
 * edge from every customer to it.
 */
module Businesses {
  import opened Graphs
  import opened Outcomes
  import opened Ids
  import opened Sampling

  /** One injected business and the customers sampled for it. */
  datatype Patronage = Patronage(business: Node, customers: seq<Node>)

  /** The edges `customer -> business` for one business. */
  function Into(customers: seq<Node>, business: Node): set<Edge> {
    set u | u in customers :: (u, business)
  }

  /** All edges the injected businesses received, in order of injection. */
  function Attached(patrons: seq<Patronage>): set<Edge> {
    if patrons == [] then {}
    else Attached(patrons[..|patrons| - 1]) + Into(patrons[|patrons| - 1].customers, patrons[|patrons| - 1].business)
  }

  /** The names of the injected businesses. */
  function NamesOf(patrons: seq<Patronage>): set<Node> {
    if patrons == [] then {} else NamesOf(patrons[..|patrons| - 1]) + {patrons[|patrons| - 1].business}
  }

  /** How many customers each injected business sampled. */
  function CustomerCounts(patrons: seq<Patronage>): seq<nat> {
    if patrons == [] then [] else CustomerCounts(patrons[..|patrons| - 1]) + [|patrons[|patrons| - 1].customers|]
  }

  /**
   * Every business is new (outside `outside` and different from every earlier
   * one) and its customers are distinct members of `pool`.
   */
  ghost predicate Served(patrons: seq<Patronage>, pool: set<Node>, outside: set<Node>) {
    patrons == [] ||
    (var init, last := patrons[..|patrons| - 1], patrons[|patrons| - 1];
     && Served(init, pool, outside)
     && last.business !in outside + NamesOf(init)
     && Distinct(last.customers)
     && forall u | u in last.customers :: u in pool)
  }

  lemma PatronsAppend(patrons: seq<Patronage>, p: Patronage)
    ensures Attached(patrons + [p]) == Attached(patrons) + Into(p.customers, p.business)
    ensures NamesOf(patrons + [p]) == NamesOf(patrons) + {p.business}
    ensures CustomerCounts(patrons + [p]) == CustomerCounts(patrons) + [|p.customers|]
  {
    assert (patrons + [p])[..|patrons|] == patrons;
  }

  lemma ServedAppend(patrons: seq<Patronage>, p: Patronage, pool: set<Node>, outside: set<Node>)
    requires Served(patrons, pool, outside)
    requires p.business !in outside + NamesOf(patrons)
    requires Distinct(p.customers) && forall u | u in p.customers :: u in pool
    ensures Served(patrons + [p], pool, outside)
  {
    assert (patrons + [p])[..|patrons|] == patrons;
  }

  /** A business new to a larger set is new to any subset of it. */
  lemma {:induction false} ServedWithin(patrons: seq<Patronage>, pool: set<Node>, outside: set<Node>, within: set<Node>)
    requires Served(patrons, pool, outside) && within <= outside
    ensures Served(patrons, pool, within)
  {
    if patrons != [] {
      ServedWithin(patrons[..|patrons| - 1], pool, outside, within);
    }
  }

  /** No business samples more customers than its pool holds. */
  lemma {:induction false} CountsFit(patrons: seq<Patronage>, pool: set<Node>, outside: set<Node>)
    requires Served(patrons, pool, outside)
    ensures |CustomerCounts(patrons)| == |patrons|
    ensures forall k | 0 <= k < |patrons| :: CustomerCounts(patrons)[k] <= |pool|
  {
    if patrons != [] {
      var init, last := patrons[..|patrons| - 1], patrons[|patrons| - 1];
      CountsFit(init, pool, outside);
      DistinctWithin(last.customers, pool);
    }
  }

  /** Distinct new businesses: one name per injected business. */
  lemma {:induction false} NamesCount(patrons: seq<Patronage>, pool: set<Node>, outside: set<Node>)
    requires Served(patrons, pool, outside)
    ensures |NamesOf(patrons)| == |patrons|
    ensures NamesOf(patrons) !! outside
  {
    if patrons != [] {
      NamesCount(patrons[..|patrons| - 1], pool, outside);
    }
  }

  /**
   * Every injected edge runs from a pool customer to one of the injected
   * businesses.
   */
  lemma {:induction false} AttachedEnds(patrons: seq<Patronage>, pool: set<Node>, outside: set<Node>)
    requires Served(patrons, pool, outside)
    ensures forall e | e in Attached(patrons) :: e.0 in pool && e.1 in NamesOf(patrons)
  {
    if patrons != [] {
      AttachedEnds(patrons[..|patrons| - 1], pool, outside);
    }
  }

  /**
   * Injecting businesses that draw their customers from the individuals of a
   * layered graph keeps it layered, with the new names counted as businesses:
   * they are sinks, and no edge among the existing nodes changes.
   */
  lemma AttachKeepsLayered(nodes: set<Node>, edges: set<Edge>, bs: set<Node>,
                           patrons: seq<Patronage>, pool: set<Node>, outside: set<Node>)
    requires Layered(nodes, edges, bs)
    requires pool <= nodes - bs
    requires Served(patrons, pool, outside) && nodes <= outside
    ensures Layered(nodes + NamesOf(patrons), edges + Attached(patrons), bs + NamesOf(patrons))
  {
    AttachedEnds(patrons, pool, outside);
    NamesCount(patrons, pool, outside);
    var names, added := NamesOf(patrons), Attached(patrons);
    assert Sinks(edges + added, bs + names) by {
      forall e | e in edges + added ensures e.0 !in bs + names {
        if e in edges { assert e.0 in nodes; }
      }
    }
    assert ReciprocalOutside(edges + added, bs + names) by {
      forall u, v | (u, v) in edges + added && v !in bs + names ensures (v, u) in edges + added {
        assert (u, v) in edges;
      }
    }
  }

  /** Every injected business is among the names of the injected businesses. */
  lemma {:induction false} NamesOfHas(patrons: seq<Patronage>, k: nat)
    requires k < |patrons|
    ensures patrons[k].business in NamesOf(patrons)
  {
    if k < |patrons| - 1 {
      NamesOfHas(patrons[..|patrons| - 1], k);
    }
  }

  /** The injected edges into business `k` come from exactly its customers. */
  lemma {:induction false} AttachedInto(patrons: seq<Patronage>, pool: set<Node>, outside: set<Node>, k: nat, u: Node)
    requires Served(patrons, pool, outside) && k < |patrons|
    ensures (u, patrons[k].business) in Attached(patrons) <==> u in patrons[k].customers
  {
    var init, last := patrons[..|patrons| - 1], patrons[|patrons| - 1];
    if k == |patrons| - 1 {
      AttachedEnds(init, pool, outside);
    } else {
      AttachedInto(init, pool, outside, k, u);
      NamesOfHas(init, k);
      assert init[k] == patrons[k];
    }
  }

  /**
   * After injection into a well-formed graph, the in-neighbours of every
   * injected business are exactly the customers sampled for it.
   */
  lemma InNeighboursExact(nodes: set<Node>, edges: set<Edge>, patrons: seq<Patronage>,
                          pool: set<Node>, outside: set<Node>, k: nat, u: Node)
    requires WellFormed(nodes, edges) && Served(patrons, pool, outside) && nodes <= outside && k < |patrons|
    ensures (u, patrons[k].business) in edges + Attached(patrons) <==> u in patrons[k].customers
  {
    NamesOfHas(patrons, k);
    NamesCount(patrons, pool, outside);
    AttachedInto(patrons, pool, outside, k, u);
  }

  /** Injection never adds an edge between two nodes that were already there. */
  lemma AttachKeepsOldEdges(nodes: set<Node>, edges: set<Edge>, patrons: seq<Patronage>,
                            pool: set<Node>, outside: set<Node>)
    requires Served(patrons, pool, outside) && nodes <= outside
    ensures forall e | e in edges + Attached(patrons) && e.0 in nodes && e.1 in nodes :: e in edges
  {
    AttachedEnds(patrons, pool, outside);
    NamesCount(patrons, pool, outside);
  }

  /** The inner loop: an edge from every customer to `business`. */
  method AttachCustomers(g: DiGraph, customers: seq<Node>, business: Node)
    requires g.Valid() && business in g.nodes
    requires forall i | 0 <= i < |customers| :: customers[i] in g.nodes
    modifies g
    ensures g.Valid() && g.nodes == old(g.nodes)
    ensures g.edges == old(g.edges) + Into(customers, business)
  {
    for j := 0 to |customers|
      invariant g.Valid() && g.nodes == old(g.nodes)
      invariant g.edges == old(g.edges) + Into(customers[..j], business)
    {
      g.AddEdge(customers[j], business);
      assert customers[..j + 1] == customers[..j] + [customers[j]];
    }
    assert customers[..|customers|] == customers;
  }

  /**
   * One pass of the business loop: sample `numUsers` customers from `pool`,
   * create a fresh business node and attach the customers to it.
   */
  method AddBusiness(ids: IdSource, g: DiGraph, pool: set<Node>, numUsers: nat)
    returns (r: Result<Patronage>)
    requires ids.Valid() && g.Valid() && pool <= g.nodes && g.nodes <= ids.issued
    modifies ids, g
    ensures ids.Valid() && g.Valid()
    ensures r.Failure? <==> numUsers > |pool|
    ensures r.Failure? ==> r.error == SampleLargerThanPopulation && unchanged(ids, g)
    ensures r.Success? ==> r.value.business !in old(ids.issued)
    ensures r.Success? ==> ids.issued == old(ids.issued) + {r.value.business}
    ensures r.Success? ==> |r.value.customers| == numUsers && Distinct(r.value.customers)
    ensures r.Success? ==> forall u | u in r.value.customers :: u in pool
    ensures r.Success? ==> g.nodes == old(g.nodes) + {r.value.business}
    ensures r.Success? ==> g.edges == old(g.edges) + Into(r.value.customers, r.value.business)
  {
    var users := Sample(pool, numUsers);
    if users.Failure? {
      return Failure(users.error);
    }
    var customers := users.value;
    var name := ids.Fresh();
    g.AddNode(name);
    AttachCustomers(g, customers, name);
    r := Success(Patronage(name, customers));
  }

  /** Growing a prefix by one element. */
  lemma PrefixStep(s: seq<nat>, i: nat)
    requires i < |s|
    ensures s[..i + 1] == s[..i] + [s[i]]
  {
  }

  /**
   * `AddBusiness` after the businesses `done`, which were added to a graph
   * that had `nodes` and `edges` while `issued` names had been handed out.
   */
  method AddNextBusiness(ids: IdSource, g: DiGraph, pool: set<Node>, ghost done: seq<Patronage>, numUsers: nat,
                         ghost issued: set<Node>, ghost nodes: set<Node>, ghost edges: set<Edge>)
    returns (r: Result<Patronage>)
    requires ids.Valid() && g.Valid() && pool <= nodes && nodes <= issued
    requires Served(done, pool, issued) && ids.issued == issued + NamesOf(done)
    requires g.nodes == nodes + NamesOf(done) && g.edges == edges + Attached(done)
    modifies ids, g
    ensures ids.Valid() && g.Valid()
    ensures r.Failure? <==> numUsers > |pool|
    ensures r.Failure? ==> r.error == SampleLargerThanPopulation && unchanged(ids, g)
    ensures r.Success? ==> Served(done + [r.value], pool, issued)
    ensures r.Success? ==> ids.issued == issued + NamesOf(done + [r.value])
    ensures r.Success? ==> g.nodes == nodes + NamesOf(done + [r.value])
    ensures r.Success? ==> g.edges == edges + Attached(done + [r.value])
    ensures r.Success? ==> CustomerCounts(done + [r.value]) == CustomerCounts(done) + [numUsers]
  {
    r := AddBusiness(ids, g, pool, numUsers);
    if r.Success? {
      var p := r.value;
      assert p.business !in issued + NamesOf(done);
      PatronsAppend(done, p);
      ServedAppend(done, p, pool, issued);
    }
  }

  /**
   * The business loop: one business per entry of `userCounts`, whose entry is
   * the number of customers it samples. Fails as soon as an entry exceeds the
   * pool, as `random.sample` does.
   */
  method AddBusinesses(ids: IdSource, g: DiGraph, pool: set<Node>, userCounts: seq<nat>)
    returns (r: Result<set<Node>>, ghost patrons: seq<Patronage>)
    requires ids.Valid() && g.Valid() && pool <= g.nodes && g.nodes <= ids.issued
    modifies ids, g
    ensures ids.Valid() && g.Valid() && old(ids.issued) <= ids.issued
    ensures r.Failure? <==> exists i | 0 <= i < |userCounts| :: userCounts[i] > |pool|
    ensures r.Failure? ==> r.error == SampleLargerThanPopulation
    ensures r.Success? ==> |patrons| == |userCounts| && Served(patrons, pool, old(ids.issued))
    ensures r.Success? ==> r.value == NamesOf(patrons) && |r.value| == |userCounts|
    ensures r.Success? ==> r.value !! old(ids.issued) && ids.issued == old(ids.issued) + r.value
    ensures r.Success? ==> g.nodes == old(g.nodes) + r.value && g.edges == old(g.edges) + Attached(patrons)
    ensures r.Success? ==> CustomerCounts(patrons) == userCounts
  {
    ghost var issued, nodes, edges := ids.issued, g.nodes, g.edges;
    var done: seq<Patronage> := [];
    var names: set<Node> := {};
    for i := 0 to |userCounts|
      invariant ids.Valid() && g.Valid()
      invariant |done| == i && Served(done, pool, issued) && names == NamesOf(done)
      invariant ids.issued == issued + NamesOf(done)
      invariant g.nodes == nodes + NamesOf(done) && g.edges == edges + Attached(done)
      invariant CustomerCounts(done) == userCounts[..i]
    {
      var one := AddNextBusiness(ids, g, pool, done, userCounts[i], issued, nodes, edges);
      if one.Failure? {
        return Failure(one.error), done;
      }
      PrefixStep(userCounts, i);
      names := names + {one.value.business};
      done := done + [one.value];
    }
    assert userCounts[..|userCounts|] == userCounts;
    CountsFit(done, pool, issued);
    NamesCount(done, pool, issued);
    r, patrons := Success(names), done;
  }

  /**
   * The business loop on a layered graph whose businesses are `bs`: the
   * customer pool is every other node, taken once before any business is
   * added, and the new businesses become sinks.
   */
  method InjectBusinesses(ids: IdSource, g: DiGraph, bs: set<Node>, userCounts: seq<nat>)
    returns (r: Result<set<Node>>, ghost patrons: seq<Patronage>)
    requires ids.Valid() && g.Valid() && g.nodes <= ids.issued && Layered(g.nodes, g.edges, bs)
    modifies ids, g
    ensures ids.Valid() && old(ids.issued) <= ids.issued
    ensures r.Failure? <==> exists i | 0 <= i < |userCounts| :: userCounts[i] > |old(g.nodes) - bs|
    ensures r.Failure? ==> r.error == SampleLargerThanPopulation
    ensures r.Success? ==> g.Valid() && r.value == NamesOf(patrons) && |patrons| == |userCounts|
    ensures r.Success? ==> |r.value| == |userCounts| && r.value !! bs
    ensures r.Success? ==> r.value !! old(ids.issued) && ids.issued == old(ids.issued) + r.value
    ensures r.Success? ==> Served(patrons, old(g.nodes) - bs, old(g.nodes))
    ensures r.Success? ==> g.nodes == old(g.nodes) + r.value && g.edges == old(g.edges) + Attached(patrons)
    ensures r.Success? ==> Layered(g.nodes, g.edges, bs + r.value)
    ensures r.Success? ==> CustomerCounts(patrons) == userCounts
  {
    var customers := g.nodes - bs;
    ghost var nodes, edges, issued := g.nodes, g.edges, ids.issued;
    r, patrons := AddBusinesses(ids, g, customers, userCounts);
    if r.Success? {
      AttachKeepsLayered(nodes, edges, bs, patrons, customers, issued);
      ServedWithin(patrons, customers, issued, nodes);
    }
  }
}
