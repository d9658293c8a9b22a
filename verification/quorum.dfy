/** Counting voters: two majorities meet, and the greatest index a majority has reached. */
module Quorum {
  import opened RaftTypes
  import opened ProgressSpec

  ghost function Reached(prs: map<nat, Pr>, voters: set<nat>, n: nat): set<nat> {
    set v | v in voters && v in prs && prs[v].matched >= n
  }

  ghost predicate QuorumReached(prs: map<nat, Pr>, voters: set<nat>, n: nat) {
    |Reached(prs, voters, n)| >= Majority(|voters|)
  }

  /** `r` is the greatest index that a majority of the voters has reached. */
  ghost predicate IsMaximalCommitted(prs: map<nat, Pr>, voters: set<nat>, r: nat) {
    QuorumReached(prs, voters, r) && forall n: nat :: QuorumReached(prs, voters, n) ==> n <= r
  }

  lemma SubsetSize(a: set<nat>, b: set<nat>)
    requires a <= b
    ensures |a| <= |b|
  {
    if a != {} {
      var x :| x in a;
      SubsetSize(a - {x}, b - {x});
    }
  }

  /** Two majorities of the same voters share a voter. */
  lemma QuorumsMeet(a: set<nat>, b: set<nat>, voters: set<nat>) returns (v: nat)
    requires a <= voters && b <= voters
    requires |a| >= Majority(|voters|) && |b| >= Majority(|voters|)
    ensures v in a && v in b
  {
    if a * b == {} {
      assert |a + b| == |a| + |b|;
      SubsetSize(a + b, voters);
      assert false;
    }
    v :| v in a * b;
  }

  /** Some index bounds what every voter has reached. */
  lemma {:induction false} MatchedBound(prs: map<nat, Pr>, voters: set<nat>) returns (bound: nat)
    ensures forall v :: v in voters && v in prs ==> prs[v].matched <= bound
  {
    if voters == {} {
      bound := 0;
    } else {
      var v :| v in voters;
      bound := MatchedBound(prs, voters - {v});
      if v in prs { bound := Max(bound, prs[v].matched); }
    }
  }

  /** Quorums shrink as the index grows. */
  lemma QuorumReachedDown(prs: map<nat, Pr>, voters: set<nat>, m: nat, n: nat)
    requires m <= n && QuorumReached(prs, voters, n)
    ensures QuorumReached(prs, voters, m)
  {
    SubsetSize(Reached(prs, voters, n), Reached(prs, voters, m));
  }

  /** Searching downwards from an index that no quorum has reached finds the greatest one reached. */
  lemma {:induction false} MaximalCommittedBelow(prs: map<nat, Pr>, voters: set<nat>, bound: nat) returns (r: nat)
    requires QuorumReached(prs, voters, 0) && !QuorumReached(prs, voters, bound + 1)
    ensures IsMaximalCommitted(prs, voters, r)
    decreases bound
  {
    if bound == 0 || QuorumReached(prs, voters, bound) {
      r := bound;
      forall n: nat | QuorumReached(prs, voters, n) ensures n <= r {
        if n > r { QuorumReachedDown(prs, voters, bound + 1, n); }
      }
    } else {
      r := MaximalCommittedBelow(prs, voters, bound - 1);
    }
  }

  lemma MaximalCommittedExists(prs: map<nat, Pr>, voters: set<nat>)
    requires voters != {} && voters <= prs.Keys
    ensures exists r :: IsMaximalCommitted(prs, voters, r)
  {
    var bound := MatchedBound(prs, voters);
    assert Reached(prs, voters, 0) == voters;
    assert Majority(|voters|) >= 1;
    assert Reached(prs, voters, bound + 1) == {};
    var r := MaximalCommittedBelow(prs, voters, bound);
  }

  /** The value `maximal_committed_index` is specified to return. */
  ghost function MaximalCommitted(prs: map<nat, Pr>, voters: set<nat>): (r: nat)
    requires voters != {} && voters <= prs.Keys
    ensures IsMaximalCommitted(prs, voters, r)
  {
    MaximalCommittedExists(prs, voters);
    var r :| IsMaximalCommitted(prs, voters, r);
    r
  }
}
