/** What the parallel job runtime promises about the order in which it runs a job's indices:
    nothing beyond running each index exactly once. */
module Jobs {

  /** A run order of a parallel job over `n` indices: every index in 0..n-1 exactly once. */
  ghost predicate IsSchedule(order: seq<int>, n: nat) {
    (forall k :: 0 <= k < |order| ==> 0 <= order[k] < n) &&
    (forall k, l :: 0 <= k < l < |order| ==> order[k] != order[l]) &&
    (forall i :: 0 <= i < n ==> i in order)
  }

  /** Indices 0..n-1 in ascending order. */
  function Ascending(n: nat): (order: seq<int>)
    ensures IsSchedule(order, n)
  {
    var order := seq(n, i => i);
    assert forall i :: 0 <= i < n ==> order[i] == i && i in order;
    order
  }
}
