/** Majorities of a fixed set of peers. */
module Quorums {
  import opened Types

  ghost predicate Majority(s: set<NodeId>, peers: set<NodeId>) {
    2 * |s| > |peers|
  }

  lemma SubsetSize(a: set<NodeId>, b: set<NodeId>)
    requires a <= b
    ensures |a| <= |b|
  {
    if a != {} {
      var x :| x in a;
      SubsetSize(a - {x}, b - {x});
    }
  }

  lemma MajorityGrows(a: set<NodeId>, b: set<NodeId>, peers: set<NodeId>)
    requires a <= b && Majority(a, peers)
    ensures Majority(b, peers)
  {
    SubsetSize(a, b);
  }

  /** Any two majorities share a member. */
  lemma Overlap(a: set<NodeId>, b: set<NodeId>, peers: set<NodeId>) returns (v: NodeId)
    requires a <= peers && b <= peers && Majority(a, peers) && Majority(b, peers)
    ensures v in a && v in b
  {
    if a * b == {} {
      assert |a + b| == |a| + |b|;
      SubsetSize(a + b, peers);
    }
    v :| v in a * b;
  }
}
