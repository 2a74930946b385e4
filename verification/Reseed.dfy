/** Choosing the node from which a lost cluster is rebuilt: rank the nodes that answer by
    their raft index, try them from the top, and kill everything else once one is healthy. */
module Reseed {
  import opened Types
  import opened Config

  datatype NodeIndex = NodeIndex(raftIndex: nat, node: string)

  predicate Ranked(s: seq<NodeIndex>) {
    forall i, j | 0 <= i < j < |s| :: s[i].raftIndex >= s[j].raftIndex
  }

  /** The nodes that answered, each with its index and each once. */
  ghost predicate Answered(s: seq<NodeIndex>, ids: set<string>, answers: map<string, nat>) {
    && (forall k | 0 <= k < |s| :: s[k].node in ids && s[k].node in answers && s[k].raftIndex == answers[s[k].node])
    && (forall id | id in ids && id in answers :: NodeIndex(answers[id], id) in s)
    && (forall i, j | 0 <= i < j < |s| :: s[i].node != s[j].node)
  }

  method SortByIndex(s: seq<NodeIndex>) returns (r: seq<NodeIndex>)
    ensures Ranked(r) && multiset(r) == multiset(s)
  {
    r := [];
    hide Ranked, InsertAt;
    EmptyRanked();
    for i := 0 to |s|
      invariant Ranked(r) && multiset(r) == multiset(s[..i])
    {
      assert s[..i + 1] == s[..i] + [s[i]];
      var k := 0;
      while k < |r| && r[k].raftIndex >= s[i].raftIndex
        invariant 0 <= k <= |r| && forall j | 0 <= j < k :: r[j].raftIndex >= s[i].raftIndex
      {
        k := k + 1;
      }
      InsertRanked(r, k, s[i]);
      InsertKeeps(r, k, s[i]);
      r := InsertAt(r, k, s[i]);
    }
    assert s[..|s|] == s;
  }

  lemma EmptyRanked()
    ensures Ranked([])
  {
  }

  function InsertAt(r: seq<NodeIndex>, k: nat, x: NodeIndex): seq<NodeIndex>
    requires k <= |r|
  {
    r[..k] + [x] + r[k..]
  }

  lemma InsertRanked(r: seq<NodeIndex>, k: nat, x: NodeIndex)
    requires Ranked(r) && k <= |r| && (forall j | 0 <= j < k :: r[j].raftIndex >= x.raftIndex)
    requires k < |r| ==> r[k].raftIndex < x.raftIndex
    ensures Ranked(InsertAt(r, k, x))
  {
    var a, b := r[..k], r[k..];
    assert forall y | y in b :: y.raftIndex <= x.raftIndex;
    assert forall z | z in a :: z.raftIndex >= x.raftIndex;
    JoinRanked(a, [x]);
    JoinRanked(a + [x], b);
  }

  lemma InsertKeeps(r: seq<NodeIndex>, k: nat, x: NodeIndex)
    requires k <= |r|
    ensures multiset(InsertAt(r, k, x)) == multiset(r) + multiset{x}
  {
    assert r == r[..k] + r[k..];
  }

  lemma JoinRanked(a: seq<NodeIndex>, b: seq<NodeIndex>)
    requires Ranked(a) && Ranked(b) && forall x, y | x in a && y in b :: x.raftIndex >= y.raftIndex
    ensures Ranked(a + b)
  {
    forall i, j | 0 <= i < j < |a + b| ensures (a + b)[i].raftIndex >= (a + b)[j].raftIndex {
      if i < |a| <= j {
        assert (a + b)[i] in a && (a + b)[j] in b;
      }
    }
  }

  lemma AnsweredPermutes(s: seq<NodeIndex>, r: seq<NodeIndex>, ids: set<string>, answers: map<string, nat>)
    requires Answered(s, ids, answers) && multiset(r) == multiset(s)
    ensures Answered(r, ids, answers)
  {
    forall x ensures x in r <==> x in s {
      assert x in r <==> x in multiset(r);
      assert x in s <==> x in multiset(s);
    }
    forall k | 0 <= k < |r|
      ensures r[k].node in ids && r[k].node in answers && r[k].raftIndex == answers[r[k].node]
    {
      assert r[k] in s;
    }
    forall i, j | 0 <= i < j < |r| ensures r[i].node != r[j].node {
      if r[i].node == r[j].node {
        assert r[i] in s && r[j] in s;
        assert r[i] == r[j];
        TwiceCounts(r, i, j);
        OnceCounts(s, r[i]);
      }
    }
  }

  lemma TwiceCounts(s: seq<NodeIndex>, i: nat, j: nat)
    requires i < j < |s| && s[i] == s[j]
    ensures multiset(s)[s[i]] >= 2
  {
    assert s == s[..j] + [s[j]] + s[j + 1..];
    assert s[i] in s[..j];
  }

  lemma {:induction false} OnceCounts(s: seq<NodeIndex>, x: NodeIndex)
    requires forall i, j | 0 <= i < j < |s| :: s[i].node != s[j].node
    ensures multiset(s)[x] <= 1
  {
    if s != [] {
      var n := |s| - 1;
      OnceCounts(s[..n], x);
      assert s == s[..n] + [s[n]];
      if s[n] == x {
        assert x !in s[..n];
      }
    }
  }

  /** Ask every running node; those that do not answer are passed over. */
  method RankReseedCandidates(running: map<string, Node>, answers: map<string, nat>) returns (r: seq<NodeIndex>)
    ensures Ranked(r) && Answered(r, running.Keys, answers)
  {
    var indices: seq<NodeIndex> := [];
    var todo := running.Keys;
    while todo != {}
      invariant todo <= running.Keys && Answered(indices, running.Keys - todo, answers)
    {
      var id :| id in todo;
      if id in answers {
        indices := indices + [NodeIndex(answers[id], id)];
      }
      todo := todo - {id};
    }
    assert running.Keys - todo == running.Keys;
    r := SortByIndex(indices);
    AnsweredPermutes(indices, r, running.Keys, answers);
  }

  /** The seed is the best candidate that became healthy: every candidate with a higher index
      was tried and failed. */
  ghost predicate BestHealthy(c: seq<NodeIndex>, healthy: set<string>, seed: string) {
    exists k :: 0 <= k < |c| && c[k].node == seed && seed in healthy
                && (forall j | 0 <= j < k :: c[j].node !in healthy)
                && forall j | 0 <= j < |c| && c[j].raftIndex > c[k].raftIndex :: c[j].node !in healthy
  }

  /** Try the candidates in order; `healthy` are those that pass the health check in time. */
  method PickSeed(c: seq<NodeIndex>, healthy: set<string>) returns (newSeed: string, killable: seq<string>)
    requires Ranked(c) && forall k | 0 <= k < |c| :: c[k].node != ""
    ensures if newSeed != "" then BestHealthy(c, healthy, newSeed) else forall k | 0 <= k < |c| :: c[k].node !in healthy
    ensures newSeed == "" ==> |killable| == |c|
  {
    newSeed := "";
    killable := [];
    for i := 0 to |c|
      invariant newSeed == "" ==> |killable| == i && forall k | 0 <= k < i :: c[k].node !in healthy
      invariant newSeed != "" ==> BestHealthy(c, healthy, newSeed)
    {
      if newSeed != "" {
        killable := killable + [c[i].node];
      } else {
        if c[i].node in healthy {
          newSeed := c[i].node;
          assert forall j | 0 <= j < |c| && c[j].raftIndex > c[i].raftIndex :: c[j].node !in healthy;
          continue;
        }
        killable := killable + [c[i].node];
      }
    }
  }

  /** Kill every known task except the seed's. */
  method KillOthers(tasks: map<string, string>, newSeed: string) returns (killed: set<string>)
    ensures killed == set n | n in tasks && n != newSeed :: tasks[n]
  {
    killed := {};
    var todo := tasks.Keys;
    while todo != {}
      invariant todo <= tasks.Keys
      invariant killed == set n | n in tasks && n !in todo && n != newSeed :: tasks[n]
    {
      var n :| n in todo;
      if n != newSeed {
        killed := killed + {tasks[n]};
      }
      todo := todo - {n};
    }
  }
}
