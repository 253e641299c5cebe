/**
 * `str(uuid.uuid4())`: a source of identifiers that never repeats. The model
 * issues the decimal rendering of a counter; only distinctness is relied on.
 */
module Ids {
  import opened Graphs

  function Digit(d: nat): char
    requires d < 10
  {
    (48 + d) as char
  }

  /** Decimal rendering of `k`, most significant digit first. */
  function Decimal(k: nat): string
    decreases k
  {
    if k < 10 then [Digit(k)] else Decimal(k / 10) + [Digit(k % 10)]
  }

  /** One digit below ten, at least two from ten on. */
  lemma DecimalLength(k: nat)
    ensures k < 10 <==> |Decimal(k)| == 1
  {
    if k >= 10 {
      assert |Decimal(k / 10)| >= 1;
    }
  }

  /** Two numbers get the same rendering only if they are equal. */
  lemma {:induction false} DecimalInjective(a: nat, b: nat)
    ensures Decimal(a) == Decimal(b) ==> a == b
    decreases a
  {
    DecimalLength(a);
    DecimalLength(b);
    if Decimal(a) == Decimal(b) {
      if a >= 10 && b >= 10 {
        var pa, pb := Decimal(a / 10), Decimal(b / 10);
        assert Decimal(a) == pa + [Digit(a % 10)];
        assert Decimal(b) == pb + [Digit(b % 10)];
        assert |pa| == |pb|;
        assert Digit(a % 10) == Decimal(a)[|pa|] == Digit(b % 10);
        assert pa == Decimal(a)[..|pa|] == pb;
        DecimalInjective(a / 10, b / 10);
      }
    }
  }

  class IdSource {
    var next: nat
    /** Every identifier handed out so far. */
    ghost var issued: set<Node>

    /** No name the counter will still produce has been handed out. */
    ghost predicate Valid()
      reads this
    {
      forall k: nat | k >= next :: Decimal(k) !in issued
    }

    /** A source that has handed out nothing. */
    constructor ()
      ensures Valid() && issued == {}
    {
      next := 0;
      issued := {};
    }

    /** `str(uuid.uuid4())`: an identifier never issued before. */
    method Fresh() returns (id: Node)
      requires Valid()
      modifies this
      ensures Valid()
      ensures id !in old(issued)
      ensures issued == old(issued) + {id}
    {
      id := Decimal(next);
      forall k: nat | k >= next + 1 ensures Decimal(k) != id {
        DecimalInjective(k, next);
      }
      issued := issued + {id};
      next := next + 1;
    }
  }
}
