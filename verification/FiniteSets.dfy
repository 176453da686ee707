/** Finite sets: sizes of subsets, the numbers 1..n, and images under injective functions. */
module FiniteSets {

  lemma SubsetSize<T>(a: set<T>, b: set<T>)
    requires a <= b
    ensures |a| <= |b|
    ensures |a| == |b| ==> a == b
  {
    assert b == a + (b - a);
    assert |b| == |a| + |b - a|;
    if |a| == |b| { assert b - a == {}; }
  }

  function UpTo(n: nat): (s: set<nat>)
    ensures forall c :: c in s <==> 1 <= c <= n
    ensures |s| == n
  {
    if n == 0 then {} else UpTo(n - 1) + {n}
  }

  function Image<T>(s: set<T>, f: T -> nat): set<nat> {
    set x | x in s :: f(x)
  }

  /** An injective function keeps the size of a set. */
  lemma {:induction false} ImageSize<T>(s: set<T>, f: T -> nat)
    requires forall x, y | x in s && y in s && x != y :: f(x) != f(y)
    ensures |Image(s, f)| == |s|
  {
    if s == {} {
      assert Image(s, f) == {};
    } else {
      var x :| x in s;
      ImageSize(s - {x}, f);
      assert Image(s, f) == Image(s - {x}, f) + {f(x)};
    }
  }

  ghost function Any<T>(s: set<T>): (r: T)
    requires s != {}
    ensures r in s
  {
    var r :| r in s;
    r
  }

  /** An id that no row has: the least one. */
  function NextId(ids: set<nat>): (id: nat)
    ensures id !in ids
  {
    SomeFreshId(ids);
    LeastFresh(ids, 0)
  }

  function LeastFresh(ids: set<nat>, from: nat): (id: nat)
    requires exists k :: k >= from && k !in ids
    ensures id !in ids
    decreases |set k | k in ids && k >= from|
  {
    if from !in ids then from
    else
      assert (set k | k in ids && k >= from) == (set k | k in ids && k >= from + 1) + {from};
      LeastFresh(ids, from + 1)
  }

  lemma SomeFreshId(ids: set<nat>)
    ensures exists k: nat :: k >= 0 && k !in ids
  {
    if forall k: nat :: k in ids {
      SubsetSize(UpTo(|ids| + 1), ids);
    }
  }
}
