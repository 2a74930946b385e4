/** The moves of the protocol and the proof that each keeps the invariant. A move changes
    one node, may extend the history, and may send messages. */
module ProtocolSteps {
  import opened Types
  import opened ProtocolLogs
  import opened Quorums
  import opened Protocol

  function Put(s: State, h: History, n: NodeId, x: Node): State {
    State(h, s.nodes[n := x], s.net)
  }

  function Send(s: State, out: set<Message>): State {
    s.(net := s.net + out)
  }

  /** Everything the history gained is about node n. */
  ghost predicate OnlyBy(h: History, h': History, n: NodeId) {
    && (forall v, t :: v != n && (v, t) in h'.ballots ==> (v, t) in h.ballots)
    && (forall v, t :: v != n && (v, t) in h'.acks ==> (v, t) in h.acks && h'.acks[(v, t)] == h.acks[(v, t)])
    && (forall t :: t in h'.leader && h'.leader[t] != n && t in h'.logs ==>
          t in h.leader && t in h.logs && h'.logs[t] == h.logs[t])
  }

  lemma OthersStable(h: History, h': History, n: NodeId, v: NodeId, x: Node)
    requires Extends(h, h') && OnlyBy(h, h', n) && v != n
    requires NodeOK(h, v, x) && v in h.peers
    ensures NodeOK(h', v, x)
  {
    LogOKGrown(h.logs, h'.logs, x.log, x.term, x.term);
    CommittedStable(h, h', x.log, x.commit, x.term, x.term);
    assert VoteOK(h', v, x);
    OthersWin(h, h', n, v, x);
    forall t | (v, t) in h'.acks ensures AckOK(h', v, x, t) {
      assert AckOK(h, v, x, t);
      HoldsAllGrown(h.logs, h'.logs, x.log, t, h.acks[(v, t)], x.term, x.term);
    }
  }

  lemma OthersWin(h: History, h': History, n: NodeId, v: NodeId, x: Node)
    requires Extends(h, h') && OnlyBy(h, h', n) && v != n
    requires Wins(h, v, x)
    ensures Wins(h', v, x)
  {
    forall t | t in h'.leader ensures WonOK(h', v, x, t) {
      if t in h'.logs && h'.leader[t] == v {
        assert WonOK(h, v, x, t);
      }
    }
  }

  lemma NodesStable(nodes: map<NodeId, Node>, h: History, h': History, n: NodeId, x: Node)
    requires Extends(h, h') && OnlyBy(h, h', n) && NodeOK(h', n, x) && n in h.peers
    requires NodesOK(h, nodes)
    ensures NodesOK(h', nodes[n := x])
  {
    var nodes' := nodes[n := x];
    forall v | v in nodes' ensures NodeOK(h', v, nodes'[v]) {
      if v != n {
        OthersStable(h, h', n, v, nodes[v]);
      }
    }
  }

  lemma NetStable(net: set<Message>, h: History, h': History)
    requires Extends(h, h') && NetOK(h, net)
    ensures NetOK(h', net)
  {
    forall m | m in net ensures MessageOK(h', m) {
      MessageStable(h, h', m);
    }
  }

  /** The one frame argument: a move that extends the history on behalf of node n. */
  lemma PutKeeps(s: State, h': History, n: NodeId, x: Node)
    requires Inv(s) && n in s.h.peers
    requires Extends(s.h, h') && OnlyBy(s.h, h', n) && HistoryOK(h') && NodeOK(h', n, x)
    ensures Inv(Put(s, h', n, x))
  {
    NodesStable(s.nodes, s.h, h', n, x);
    NetStable(s.net, s.h, h');
  }

  lemma SetKeeps(s: State, n: NodeId, x: Node)
    requires Inv(s) && n in s.h.peers && NodeOK(s.h, n, x)
    ensures Inv(Put(s, s.h, n, x))
  {
    var nodes' := s.nodes[n := x];
    forall v | v in nodes' ensures NodeOK(s.h, v, nodes'[v]) {
      assert v != n ==> NodeOK(s.h, v, s.nodes[v]);
    }
  }

  lemma SendKeeps(s: State, out: set<Message>)
    requires Inv(s) && forall m | m in out :: MessageOK(s.h, m)
    ensures Inv(Send(s, out))
  {
  }

  // ---------------------------------------------------------------- moves that leave the history alone

  function Bumped(x: Node, t: nat, acked: map<NodeId, nat>): Node {
    x.(term := t, vote := NONE, role := Follower, granted := {}, acked := acked)
  }

  function SteppedDown(x: Node, acked: map<NodeId, nat>): Node {
    x.(role := Follower, granted := {}, acked := acked)
  }

  /** A node that keeps its log and does not go back to an earlier term. */
  lemma NodeMoves(h: History, n: NodeId, x: Node, x': Node)
    requires NodeOK(h, n, x) && x'.log == x.log && x.term <= x'.term
    requires VoteOK(h, n, x') && Leads(h, n, x') && Committed(h, x'.log, x'.commit, x'.term)
    requires x'.role.Candidate? && x'.term == x.term ==> x.role.Candidate?
    ensures NodeOK(h, n, x')
  {
    LogOKGrown(h.logs, h.logs, x.log, x.term, x'.term);
    forall t | (n, t) in h.acks ensures AckOK(h, n, x', t) {
      assert AckOK(h, n, x, t);
      HoldsAllGrown(h.logs, h.logs, x.log, t, h.acks[(n, t)], x.term, x'.term);
    }
    forall u | u in h.leader ensures WonOK(h, n, x', u) {
      assert WonOK(h, n, x, u);
    }
  }

  lemma BumpKeeps(s: State, n: NodeId, t: nat, acked: map<NodeId, nat>)
    requires Inv(s) && n in s.h.peers && t > s.nodes[n].term
    ensures Inv(Put(s, s.h, n, Bumped(s.nodes[n], t, acked)))
  {
    var x, x' := s.nodes[n], Bumped(s.nodes[n], t, acked);
    assert NodeOK(s.h, n, s.nodes[n]);
    CommittedStable(s.h, s.h, x.log, x.commit, x.term, t);
    NodeMoves(s.h, n, x, x');
    SetKeeps(s, n, x');
  }

  lemma StepDownKeeps(s: State, n: NodeId, acked: map<NodeId, nat>)
    requires Inv(s) && n in s.h.peers
    ensures Inv(Put(s, s.h, n, SteppedDown(s.nodes[n], acked)))
  {
    var x, x' := s.nodes[n], SteppedDown(s.nodes[n], acked);
    NodeMoves(s.h, n, x, x');
    SetKeeps(s, n, x');
  }

  lemma CountVoteNode(h: History, n: NodeId, x: Node, v: NodeId)
    requires NodeOK(h, n, x) && x.role.Candidate? && v in h.peers
    requires (v, x.term) in h.ballots && h.ballots[(v, x.term)].cand == n
    ensures NodeOK(h, n, x.(granted := x.granted + {v}))
  {
    NodeMoves(h, n, x, x.(granted := x.granted + {v}));
  }

  /** A candidate counts a vote that was cast for it in its term. */
  lemma CountVoteKeeps(s: State, n: NodeId, v: NodeId)
    requires Inv(s) && n in s.h.peers && s.nodes[n].role.Candidate?
    requires (v, s.nodes[n].term) in s.h.ballots && s.h.ballots[(v, s.nodes[n].term)].cand == n
    ensures Inv(Put(s, s.h, n, s.nodes[n].(granted := s.nodes[n].granted + {v})))
  {
    assert BallotOK(s.h, v, s.nodes[n].term);
    CountVoteNode(s.h, n, s.nodes[n], v);
    SetKeeps(s, n, s.nodes[n].(granted := s.nodes[n].granted + {v}));
  }

  lemma RecordAckNode(h: History, n: NodeId, x: Node, v: NodeId, i: nat)
    requires NodeOK(h, n, x) && x.role.Leader? && v in h.peers
    requires (v, x.term) in h.acks && i <= h.acks[(v, x.term)]
    ensures NodeOK(h, n, x.(acked := x.acked[v := i]))
  {
    NodeMoves(h, n, x, x.(acked := x.acked[v := i]));
  }

  /** A leader records an acknowledgement that was really given. */
  lemma RecordAckKeeps(s: State, n: NodeId, v: NodeId, i: nat)
    requires Inv(s) && n in s.h.peers && s.nodes[n].role.Leader? && v in s.h.peers
    requires (v, s.nodes[n].term) in s.h.acks && i <= s.h.acks[(v, s.nodes[n].term)]
    ensures Inv(Put(s, s.h, n, s.nodes[n].(acked := s.nodes[n].acked[v := i])))
  {
    RecordAckNode(s.h, n, s.nodes[n], v, i);
    SetKeeps(s, n, s.nodes[n].(acked := s.nodes[n].acked[v := i]));
  }

  /** The commit index may move to any point that is covered by a choice. */
  lemma SetCommitKeeps(s: State, n: NodeId, c: nat)
    requires Inv(s) && n in s.h.peers
    requires Committed(s.h, s.nodes[n].log, c, s.nodes[n].term)
    ensures Inv(Put(s, s.h, n, s.nodes[n].(commit := c)))
  {
    var x := s.nodes[n];
    var x' := x.(commit := c);
    NodeMoves(s.h, n, x, x');
    SetKeeps(s, n, x');
  }

  /** A leader that sees a majority of match indices at c, in its own term, may commit c. */
  lemma MajorityCommits(h: History, n: NodeId, x: Node, q: set<NodeId>, c: nat)
    requires HistoryOK(h) && NodeOK(h, n, x) && x.role.Leader? && x.term in h.logs
    requires q <= h.peers && Majority(q, h.peers)
    requires forall v | v in q :: v in x.acked && c <= x.acked[v]
    requires 1 <= c <= |x.log| && x.log[c - 1].term == x.term
    ensures Committed(h, x.log, c, x.term)
  {
    assert WonOK(h, n, x, x.term);
    MajorityGrows(q, Ackers(h, x.term, c), h.peers);
    assert Witness(h, x.log, c, x.term, x.term, c);
  }

  /** A node that has acknowledged c of its leader's log may commit what the leader committed. */
  lemma AckedCommits(h: History, n: NodeId, x: Node, c: nat)
    requires HistoryOK(h) && NodeOK(h, n, x) && x.term in h.logs
    requires (n, x.term) in h.acks && c <= h.acks[(n, x.term)]
    requires Committed(h, h.logs[x.term], c, x.term)
    ensures Committed(h, x.log, c, x.term)
  {
    assert AckOK(h, n, x, x.term);
    assert Holds(h.logs, x.log, x.term, c, x.term);
    CommittedKept(h, h.logs[x.term], x.log, c, c, x.term);
  }
}
