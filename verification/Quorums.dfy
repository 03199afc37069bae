/**
 The two quorum thresholds of the repository and when they intersect.
 The single-decree node counts promises up to `failure_nodes() + 1`; the switch
 controller counts learns up to `1 + node_count // 2`.
 */
module Quorums {
  import opened Sets

  /** `(len(self.nodes)-1)/2 + 1`; operands are positive, so Python 2 truncation agrees with Dafny. */
  function PromiseQuorum(n: nat): nat
    requires n >= 1
  {
    (n - 1) / 2 + 1
  }

  /** `1 + self.node_count // 2` */
  function Majority(n: nat): nat {
    1 + n / 2
  }

  predicate IsId(n: nat, i: int) {
    1 <= i <= n
  }

  /** Node identifiers are 1..n. */
  function Ids(n: nat): set<int> {
    set i | 1 <= i <= n && IsId(n, i)
  }

  lemma {:induction false} IdsSize(n: nat)
    ensures |Ids(n)| == n
  {
    if n == 0 {
      assert Ids(0) == {};
    } else {
      IdsSize(n - 1);
      assert Ids(n) == Ids(n - 1) + {n};
    }
  }

  /** Every `p`-set and every `q`-set of the `n` nodes share a node. */
  ghost predicate AlwaysMeet(n: nat, p: nat, q: nat) {
    forall a, b | a <= Ids(n) && b <= Ids(n) && |a| == p && |b| == q :: a * b != {}
  }

  lemma MissEachOther(n: nat, p: nat, q: nat)
    requires p + q <= n
    ensures !AlwaysMeet(n, p, q)
  {
    var a, b := Ids(p), Ids(p + q) - Ids(p);
    IdsSize(p);
    IdsSize(p + q);
    assert Ids(p + q) == a + b;
    assert a <= Ids(n) && b <= Ids(n) && |a| == p && |b| == q && a * b == {};
  }

  lemma AlwaysMeetIff(n: nat, p: nat, q: nat)
    requires p <= n && q <= n
    ensures AlwaysMeet(n, p, q) <==> p + q > n
  {
    IdsSize(n);
    if p + q > n {
      forall a, b | a <= Ids(n) && b <= Ids(n) && |a| == p && |b| == q ensures a * b != {} {
        Overlap(Ids(n), a, b);
      }
    } else {
      MissEachOther(n, p, q);
    }
  }

  /** Two promise quorums intersect exactly for odd `n`, exactly when the threshold is a strict
      majority; the controller's threshold intersects itself and the promise quorum for every `n`. */
  lemma PromiseQuorumNeedsOddNodes(n: nat)
    requires n >= 1
    ensures AlwaysMeet(n, PromiseQuorum(n), PromiseQuorum(n)) <==> n % 2 == 1
    ensures PromiseQuorum(n) == Majority(n) <==> n % 2 == 1
    ensures AlwaysMeet(n, Majority(n), Majority(n))
    ensures AlwaysMeet(n, PromiseQuorum(n), Majority(n))
  {
    AlwaysMeetIff(n, PromiseQuorum(n), PromiseQuorum(n));
    AlwaysMeetIff(n, Majority(n), Majority(n));
    AlwaysMeetIff(n, PromiseQuorum(n), Majority(n));
  }
}
