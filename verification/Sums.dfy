/** Sums of amounts over chosen positions of a sequence. */
module Sums {

  /** The sum of the amounts at the positions in `at`. */
  function SumAt(amounts: seq<nat>, at: set<nat>): nat {
    if amounts == [] then 0
    else
      var last := |amounts| - 1;
      SumAt(amounts[..last], at) + if last in at then amounts[last] else 0
  }

  /** Only the positions of the sequence matter. */
  lemma {:induction false} SumAtSame(amounts: seq<nat>, a: set<nat>, b: set<nat>)
    requires forall k | 0 <= k < |amounts| :: k in a <==> k in b
    ensures SumAt(amounts, a) == SumAt(amounts, b)
  {
    if amounts != [] { SumAtSame(amounts[..|amounts| - 1], a, b); }
  }

  lemma SumAtSnoc(amounts: seq<nat>, x: nat, at: set<nat>)
    ensures SumAt(amounts + [x], at) == SumAt(amounts, at) + if |amounts| in at then x else 0
  {
    assert (amounts + [x])[..|amounts|] == amounts;
  }
}
