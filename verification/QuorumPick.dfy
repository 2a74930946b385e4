/** How a leader finds the index a majority has reached: sort the match indices in descending
    order and take the one at the quorum position. */
module QuorumPick {
  import opened Types
  import opened ProgressSpec
  import opened NodeSpec

  predicate Descending(s: seq<nat>) {
    forall i, j | 0 <= i <= j < |s| :: s[j] <= s[i]
  }

  function CountAtLeast(s: seq<nat>, y: nat): (n: nat)
    ensures n <= |s|
  {
    if s == [] then 0 else CountAtLeast(s[..|s| - 1], y) + if s[|s| - 1] >= y then 1 else 0
  }

  lemma {:induction false} CountAppend(a: seq<nat>, b: seq<nat>, y: nat)
    ensures CountAtLeast(a + b, y) == CountAtLeast(a, y) + CountAtLeast(b, y)
  {
    if b == [] {
      assert a + b == a;
    } else {
      CountAppend(a, b[..|b| - 1], y);
      assert (a + b)[..|a + b| - 1] == a + b[..|b| - 1];
    }
  }

  lemma {:induction false} CountPermutes(a: seq<nat>, b: seq<nat>, y: nat)
    requires multiset(a) == multiset(b)
    ensures CountAtLeast(a, y) == CountAtLeast(b, y)
    decreases |a|
  {
    if a == [] {
      assert |multiset(b)| == 0;
    } else {
      var x := a[|a| - 1];
      assert x in multiset(b);
      var k :| 0 <= k < |b| && b[k] == x;
      var b' := b[..k] + b[k + 1..];
      assert b == b[..k] + [x] + b[k + 1..];
      assert a == a[..|a| - 1] + [x];
      assert multiset(b') == multiset(b) - multiset{x};
      CountPermutes(a[..|a| - 1], b', y);
      CountAppend(b[..k], [x], y);
      CountAppend(b[..k] + [x], b[k + 1..], y);
      CountAppend(b[..k], b[k + 1..], y);
    }
  }

  /** In a descending sequence, at least q elements reach y exactly when the q-th does. */
  lemma {:induction false} CountDescending(s: seq<nat>, q: nat, y: nat)
    requires Descending(s) && 1 <= q <= |s|
    ensures CountAtLeast(s, y) >= q <==> y <= s[q - 1]
  {
    var s' := s[..|s| - 1];
    if q <= |s'| {
      CountDescending(s', q, y);
      assert s'[q - 1] == s[q - 1];
    } else if s' != [] {
      CountDescending(s', q - 1, y);
    }
  }

  /** A sorted permutation, as the library sort promises. */
  method SortDescending(s: seq<nat>) returns (r: seq<nat>)
    ensures Descending(r) && multiset(r) == multiset(s)
  {
    r := [];
    for i := 0 to |s|
      invariant Descending(r) && multiset(r) == multiset(s[..i])
    {
      assert s[..i + 1] == s[..i] + [s[i]];
      var k := 0;
      while k < |r| && r[k] >= s[i]
        invariant 0 <= k <= |r| && forall j | 0 <= j < k :: r[j] >= s[i]
      {
        k := k + 1;
      }
      assert r == r[..k] + r[k..];
      r := r[..k] + [s[i]] + r[k..];
    }
    assert s[..|s|] == s;
  }

  ghost function ReachedAmong(prs: map<NodeId, Progress>, ids: set<NodeId>, y: nat): set<NodeId>
    requires ids <= prs.Keys
  {
    set i | i in ids && y <= prs[i].matched
  }

  /** The gathered indices count the peers visited so far, at every threshold. */
  ghost predicate Gathered(prs: map<NodeId, Progress>, ids: set<NodeId>, mis: seq<nat>)
    requires ids <= prs.Keys
  {
    |mis| == |ids| && forall y: nat :: CountAtLeast(mis, y) == |ReachedAmong(prs, ids, y)|
  }

  lemma GatherOne(prs: map<NodeId, Progress>, ids: set<NodeId>, mis: seq<nat>, i: NodeId)
    requires ids <= prs.Keys && Gathered(prs, ids, mis) && i in prs && i !in ids
    ensures Gathered(prs, ids + {i}, mis + [prs[i].matched])
  {
    forall y: nat ensures CountAtLeast(mis + [prs[i].matched], y) == |ReachedAmong(prs, ids + {i}, y)| {
      CountAppend(mis, [prs[i].matched], y);
      var was := ReachedAmong(prs, ids, y);
      assert ReachedAmong(prs, ids + {i}, y) == if y <= prs[i].matched then was + {i} else was;
    }
  }

  lemma PickedIsQuorum(prs: map<NodeId, Progress>, mis: seq<nat>, sorted: seq<nat>)
    requires prs != map[] && Gathered(prs, prs.Keys, mis)
    requires Descending(sorted) && multiset(sorted) == multiset(mis)
    ensures |prs| / 2 < |sorted| && IsQuorumIndex(prs, sorted[|prs| / 2])
  {
    assert |sorted| == |multiset(sorted)| == |multiset(mis)| == |mis|;
    forall y: nat ensures |Reached(prs, y)| >= |prs| / 2 + 1 <==> y <= sorted[|prs| / 2] {
      CountPermutes(mis, sorted, y);
      CountDescending(sorted, |prs| / 2 + 1, y);
      assert ReachedAmong(prs, prs.Keys, y) == Reached(prs, y);
    }
  }

  /** The index picked is the greatest that a majority has reached, for every cluster size. */
  method PickQuorumIndex(prs: map<NodeId, Progress>) returns (mci: nat)
    requires prs != map[]
    ensures IsQuorumIndex(prs, mci) && mci == QuorumIndex(prs)
  {
    hide Gathered, IsQuorumIndex;
    var mis: seq<nat> := [];
    var todo := prs.Keys;
    ghost var done: set<NodeId> := {};
    assert Gathered(prs, done, mis) by {
      GatherNone(prs);
    }
    while todo != {}
      invariant done + todo == prs.Keys && done !! todo
      invariant Gathered(prs, done, mis)
    {
      var i :| i in todo;
      GatherOne(prs, done, mis, i);
      mis := mis + [prs[i].matched];
      todo, done := todo - {i}, done + {i};
    }
    assert done == prs.Keys;
    var sorted := SortDescending(mis);
    PickedIsQuorum(prs, mis, sorted);
    var q := |prs| / 2 + 1;
    mci := sorted[q - 1];
    OneQuorumIndex(prs, mci, QuorumIndex(prs));
  }

  lemma GatherNone(prs: map<NodeId, Progress>)
    ensures Gathered(prs, {}, [])
  {
    assert forall y: nat :: ReachedAmong(prs, {}, y) == {};
  }

  lemma OneQuorumIndex(prs: map<NodeId, Progress>, a: nat, b: nat)
    requires IsQuorumIndex(prs, a) && IsQuorumIndex(prs, b)
    ensures a == b
  {
    assert |Reached(prs, a)| >= |prs| / 2 + 1;
    assert |Reached(prs, b)| >= |prs| / 2 + 1;
  }
}
