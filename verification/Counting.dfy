/** Sums of natural numbers, and how they change with one element. */
module Counting {

  function Sum(ns: seq<nat>): nat {
    if ns == [] then 0 else ns[0] + Sum(ns[1..])
  }

  lemma {:induction false} SumUpdate(ns: seq<nat>, i: nat, n: nat)
    requires i < |ns|
    ensures ns[i] <= Sum(ns)
    ensures Sum(ns[i := n]) == Sum(ns) - ns[i] + n
  {
    if i == 0 {
      assert ns[i := n][1..] == ns[1..];
    } else {
      assert ns[i := n][1..] == ns[1..][i - 1 := n];
      SumUpdate(ns[1..], i - 1, n);
    }
  }

  lemma {:induction false} SumMonotone(ns: seq<nat>, ms: seq<nat>)
    requires |ns| == |ms| && forall k :: 0 <= k < |ns| ==> ns[k] <= ms[k]
    ensures Sum(ns) <= Sum(ms)
  {
    if ns != [] { SumMonotone(ns[1..], ms[1..]); }
  }

  lemma {:induction false} SumZero(ns: seq<nat>)
    requires forall k :: 0 <= k < |ns| ==> ns[k] == 0
    ensures Sum(ns) == 0
  {
    if ns != [] { SumZero(ns[1..]); }
  }

  lemma {:induction false} SumAppend(ns: seq<nat>, n: nat)
    ensures Sum(ns + [n]) == Sum(ns) + n
  {
    if ns == [] {
      assert ns + [n] == [n] && [n][1..] == [];
    } else {
      assert (ns + [n])[1..] == ns[1..] + [n];
      SumAppend(ns[1..], n);
    }
  }

  /** Two different elements of a sum add up to no more than the sum. */
  lemma {:induction false} SumOfTwo(ns: seq<nat>, i: nat, j: nat)
    requires i < |ns| && j < |ns| && i != j
    ensures ns[i] + ns[j] <= Sum(ns)
  {
    SumUpdate(ns, i, 0);
    SumUpdate(ns[i := 0], j, 0);
  }
}
