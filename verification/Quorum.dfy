/** Finite sets of peer numbers and the intersection of quorums. */
module Quorum {

  /** Every member of s is a peer of an n-peer cluster. */
  ghost predicate Within(s: set<nat>, n: nat) {
    forall x :: x in s ==> x < n
  }

  lemma {:induction false} WithinCard(s: set<nat>, n: nat)
    requires Within(s, n)
    ensures |s| <= n
  {
    if n == 0 {
      assert s == {};
    } else {
      WithinCard(s - {n - 1}, n - 1);
    }
  }

  lemma SubsetCard<T>(a: set<T>, b: set<T>)
    requires a <= b
    ensures |a| <= |b|
  {
    assert b == a + (b - a);
  }

  /** Two sets of peers that are together larger than the cluster share a peer. */
  lemma QuorumsMeet(n: nat, a: set<nat>, b: set<nat>) returns (x: nat)
    requires Within(a, n) && Within(b, n)
    requires |a| + |b| > n
    ensures x in a && x in b
  {
    WithinCard(a + b, n);
    assert |a + b| == |a| + |b| - |a * b|;
    x :| x in a * b;
  }
}
