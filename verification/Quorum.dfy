/** Counting with supermajorities: more than two thirds of n nodes, under integer division. */
module Quorum {
  /** The smallest number of attesters above the threshold `(2 * n) / 3`. */
  function QuorumSize(n: nat): nat {
    2 * n / 3 + 1
  }

  /** Two quorums among n nodes share at least this many of them. */
  function Overlap(n: nat): int {
    2 * QuorumSize(n) - n
  }

  lemma SubsetSize<T>(a: set<T>, b: set<T>)
    requires a <= b
    ensures |a| <= |b|
  {
    assert b == a + (b - a);
  }

  lemma InclusionExclusion<T>(a: set<T>, b: set<T>, all: set<T>)
    requires a <= all && b <= all
    ensures |a * b| >= |a| + |b| - |all|
  {
    SubsetSize(a + b, all);
  }

  /** With fewer faulty nodes than two quorums must share, two quorums share a correct node. */
  lemma QuorumsShareCorrectNode<T>(a: set<T>, b: set<T>, all: set<T>, faulty: set<T>) returns (x: T)
    requires a <= all && b <= all
    requires |a| >= QuorumSize(|all|) && |b| >= QuorumSize(|all|)
    requires |faulty| < Overlap(|all|)
    ensures x in a && x in b && x !in faulty
  {
    InclusionExclusion(a, b, all);
    if a * b <= faulty {
      SubsetSize(a * b, faulty);
      assert false;
    }
    x :| x in a * b && x !in faulty;
  }

  /** The usual bound of fewer than a third of faulty nodes is enough. */
  lemma ThirdIsEnough(n: nat, f: nat)
    requires 3 * f < n
    ensures f < Overlap(n)
  {
  }

  lemma {:induction false} TakeSubset<T>(s: set<T>, m: nat) returns (t: set<T>)
    requires m <= |s|
    ensures t <= s && |t| == m
    decreases m
  {
    if m == 0 {
      t := {};
    } else {
      var x :| x in s;
      var rest := TakeSubset(s - {x}, m - 1);
      t := rest + {x};
    }
  }

  /** The overlap bound is exact: from that many faulty nodes on, some two quorums share nothing but
      faulty ones. */
  lemma QuorumsMayShareOnlyFaulty<T>(all: set<T>, faulty: set<T>) returns (a: set<T>, b: set<T>)
    requires faulty <= all && |faulty| >= Overlap(|all|)
    ensures a <= all && b <= all && a * b <= faulty
    ensures |a| == QuorumSize(|all|) && |b| == QuorumSize(|all|)
  {
    SubsetSize(faulty, all);
    var n, q := |all|, QuorumSize(|all|);
    var shared := TakeSubset(faulty, 2 * q - n);
    assert |all - shared| == 2 * (n - q);
    var half := TakeSubset(all - shared, n - q);
    var other := all - shared - half;
    assert |other| == n - q;
    a, b := shared + half, shared + other;
    assert a * b == shared;
  }
}
