/**
 * The two uses of Python's random source besides `randint`: enumerating a set
 * into a list (`list(s)`, in an order the program does not control) and
 * `random.sample`. Each choice is nondeterministic, so what is proved holds
 * for every outcome.
 */
module Sampling {
  import opened Graphs
  import opened Outcomes

  ghost predicate Distinct(s: seq<Node>) {
    forall i, j | 0 <= i < j < |s| :: s[i] != s[j]
  }

  /** A sequence of distinct members of `pool` is no longer than `pool` is large. */
  lemma {:induction false} DistinctWithin(s: seq<Node>, pool: set<Node>)
    requires Distinct(s) && forall u | u in s :: u in pool
    ensures |s| <= |pool|
  {
    if s != [] {
      var init, x := s[..|s| - 1], s[|s| - 1];
      forall u | u in init ensures u in pool - {x} {
        var i :| 0 <= i < |init| && init[i] == u;
        assert s[i] == u;
      }
      DistinctWithin(init, pool - {x});
    }
  }

  /** `list(s)`: every element of `s` exactly once, in some order. */
  method ListOf(s: set<Node>) returns (r: seq<Node>)
    ensures |r| == |s| && Distinct(r)
    ensures forall i | 0 <= i < |r| :: r[i] in s
    ensures forall x | x in s :: x in r
  {
    var rest := s;
    r := [];
    while rest != {}
      invariant rest <= s
      invariant |r| + |rest| == |s|
      invariant Distinct(r)
      invariant forall x :: x in r <==> x in s && x !in rest
      decreases |rest|
    {
      var x :| x in rest;
      r := r + [x];
      rest := rest - {x};
    }
  }

  /**
   * `random.sample(population, k)` over a list of distinct nodes: `k`
   * distinct members, or an error when `k` exceeds the population.
   */
  method Sample(population: set<Node>, k: nat) returns (r: Result<seq<Node>>)
    ensures r.Failure? <==> k > |population|
    ensures r.Failure? ==> r.error == SampleLargerThanPopulation
    ensures r.Success? ==> |r.value| == k && Distinct(r.value)
    ensures r.Success? ==> forall i | 0 <= i < |r.value| :: r.value[i] in population
  {
    if k > |population| {
      return Failure(SampleLargerThanPopulation);
    }
    var rest := population;
    var chosen: seq<Node> := [];
    while |chosen| < k
      invariant |chosen| <= k
      invariant rest <= population
      invariant |chosen| + |rest| == |population|
      invariant Distinct(chosen)
      invariant forall i | 0 <= i < |chosen| :: chosen[i] in population && chosen[i] !in rest
      decreases k - |chosen|
    {
      var x :| x in rest;
      chosen := chosen + [x];
      rest := rest - {x};
    }
    r := Success(chosen);
  }
}
