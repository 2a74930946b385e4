/** What each node keeps along every run of a cluster: its term, its vote, its commit index
    and the flow-control windows of its peers. */
module ClusterProgress {
  import opened Types
  import opened LogView
  import opened ProgressSpec
  import opened NodeSpec
  import opened ProtocolLogs
  import opened Protocol
  import opened LogRefinement
  import opened StepRefinement
  import opened Cluster
  import opened ClusterSafety
  import opened StepFacts

  lemma MessageIsProper(h: History, m: Message)
    requires HistoryOK(h) && MessageOK(h, m)
    ensures Proper(m)
  {
    if m.kind.MsgApp? {
      assert LogOK(h.logs, h.logs[m.term], m.term);
      CopiedFollow(h.logs, m.term, h.logs[m.term], m.index, m.entries);
    }
  }

  lemma SentIsProper(s: State, c: Group, m: Message)
    requires Represents(s, c) && m in c.net
    ensures Proper(m)
  {
    hide HistoryOK, MessageOK, Proper;
    InNet(s, m);
    MessageIsProper(s.h, m);
  }

  ghost predicate NodeFine(r: Raft) {
    Sane(r) && Windows(r)
  }

  /** Between two moments: the term does not go back, the vote of a term is not changed
      within it, the commit index does not go back. */
  ghost predicate GoesOn(r: Raft, r': Raft) {
    && r.term <= r'.term && r.committed <= r'.committed
    && (r.term == r'.term && r.vote != NONE ==> r'.vote == r.vote)
  }

  lemma InitFine(c: Group, boot: nat, start: seq<Entry>, n: NodeId)
    requires Init(c, boot, start) && n in c.nodes
    ensures NodeFine(c.nodes[n])
  {
    assert StartsAs(c, n, boot, start);
  }

  lemma RestartFine(r: Raft, a: nat)
    requires NodeFine(r) && a <= r.committed
    ensures NodeFine(Restarted(r, a)) && GoesOn(r, Restarted(r, a))
  {
  }

  lemma StepFine(r: Raft, m: Message)
    requires NodeFine(r) && Proper(m) && Step(r, m).Done?
    ensures NodeFine(Step(r, m).r) && GoesOn(r, Step(r, m).r)
  {
    hide Step;
    StepAdvances(r, m);
  }

  lemma EventFine(s: State, c: Group, e: Event)
    requires Represents(s, c) && Enabled(c, e) && After(c, e).Done? && NodeFine(c.nodes[e.n])
    ensures NodeFine(After(c, e).r) && GoesOn(c.nodes[e.n], After(c, e).r)
  {
    hide Step, Represents, NodeFine, GoesOn, Restarted;
    match e {
      case Deliver(n, m) =>
        SentIsProper(s, c, m);
        StepFine(c.nodes[n], m);
      case Local(n, m) => StepFine(c.nodes[n], m);
      case Restart(n, a) => RestartFine(c.nodes[n], a);
    }
  }

  /** In every reachable state every node's log is in order. The window of every other peer is
      strictly rising, strictly between match and next, and no wider than its size while the
      peer is in Replicate state, and empty otherwise. */
  lemma {:induction false} AlwaysFine(u: Run, i: nat, n: NodeId)
    requires IsRun(u) && i < |u.states| && n in u.states[i].nodes
    ensures NodeFine(u.states[i].nodes[n])
    decreases i
  {
    hide NodeFine, Init, After, Enabled;
    if i == 0 {
      InitFine(u.states[0], u.boot, u.start, n);
    } else {
      var c, e := u.states[i - 1], u.events[i - 1];
      assert StepAt(u, i - 1);
      SameNodes(c, e, u.states[i]);
      AlwaysFine(u, i - 1, n);
      if n == e.n {
        var s := RunTo(u, i - 1);
        EventFine(s, c, e);
      }
    }
  }

  lemma SameNodes(c: Group, e: Event, c': Group)
    requires Next(c, e, c')
    ensures c'.nodes.Keys == c.nodes.Keys && e.n in c.nodes
  {
  }

  lemma GoesOnSame(r: Raft)
    ensures GoesOn(r, r)
  {
  }

  lemma GoesOnTwice(a: Raft, b: Raft, c: Raft)
    requires GoesOn(a, b) && GoesOn(b, c)
    ensures GoesOn(a, c)
  {
  }

  lemma OneStep(u: Run, j: nat, n: NodeId)
    requires IsRun(u) && j < |u.events| && n in u.states[j].nodes
    ensures n in u.states[j + 1].nodes && GoesOn(u.states[j].nodes[n], u.states[j + 1].nodes[n])
  {
    hide NodeFine, Init, After, Enabled, Represents;
    var c, e := u.states[j], u.events[j];
    assert StepAt(u, j);
    SameNodes(c, e, u.states[j + 1]);
    if n == e.n {
      var s := RunTo(u, j);
      AlwaysFine(u, j, n);
      EventFine(s, c, e);
    }
  }

  /** Along every run, each node's term never decreases, its vote, once cast in a term, never
      changes in that term, and its commit index never decreases. */
  lemma {:induction false} NeverGoesBack(u: Run, i: nat, j: nat, n: NodeId)
    requires IsRun(u) && i <= j < |u.states| && n in u.states[i].nodes
    ensures n in u.states[j].nodes && GoesOn(u.states[i].nodes[n], u.states[j].nodes[n])
    decreases j
  {
    hide IsRun, GoesOn;
    GoesOnSame(u.states[i].nodes[n]);
    if i < j {
      NeverGoesBack(u, i, j - 1, n);
      RunShape(u);
      OneStep(u, j - 1, n);
      GoesOnTwice(u.states[i].nodes[n], u.states[j - 1].nodes[n], u.states[j].nodes[n]);
    }
  }

  lemma RunShape(u: Run)
    requires IsRun(u)
    ensures |u.states| == |u.events| + 1
  {
  }
}
