/**
 Sets of replicas and the sizes of quorums (src/lib/configuration.cc). Both
 replication protocols rest on these counts.
 */
module Quorums {

  /** Configuration::QuorumSize */
  function QuorumSize(f: nat): nat { f + 1 }

  /** Configuration::FastQuorumSize */
  function FastQuorumSize(f: nat): nat { f + (f + 1) / 2 + 1 }

  /** The replicas of a group of `n`. */
  function Replicas(n: nat): (s: set<nat>)
    ensures |s| == n
    ensures forall k :: k in s <==> 0 <= k < n
  {
    if n == 0 then {} else Replicas(n - 1) + {n - 1}
  }

  lemma {:induction false} SubsetSize<T>(a: set<T>, b: set<T>)
    requires a <= b
    ensures |a| <= |b|
  {
    assert b == a + (b - a);
  }

  /** Two sets share at least as many members as their sizes exceed the size of what contains both. */
  lemma {:induction false} Overlap<T>(a: set<T>, b: set<T>, all: set<T>)
    requires a <= all && b <= all
    ensures |a * b| >= |a| + |b| - |all|
  {
    assert |a + b| == |a| + |b| - |a * b|;
    SubsetSize(a + b, all);
  }

  /** Two majorities of `2f + 1` replicas have a replica in common. */
  lemma QuorumsMeet(f: nat, a: set<nat>, b: set<nat>) returns (k: nat)
    requires |a| >= QuorumSize(f) && |b| >= QuorumSize(f)
    requires forall k :: k in a || k in b ==> k < 2 * f + 1
    ensures k in a && k in b
  {
    Overlap(a, b, Replicas(2 * f + 1));
    k :| k in a * b;
  }
}
