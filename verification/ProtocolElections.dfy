/** Standing for election, voting and winning: the moves that extend the ballots. */
module ProtocolElections {
  import opened Types
  import opened ProtocolLogs
  import opened Quorums
  import opened Protocol
  import opened ProtocolSteps

  // ---------------------------------------------------------------- casting a ballot

  function WithBallot(h: History, v: NodeId, t: nat, b: Ballot): History {
    h.(ballots := h.ballots[(v, t) := b])
  }

  /** A first ballot of v in term t, cast for a candidate of that term by a node that
      holds what it acknowledged before. */
  ghost predicate FreshBallot(h: History, v: NodeId, t: nat, b: Ballot) {
    && v in h.peers && b.cand in h.peers && h.boot < t
    && (v, t) !in h.ballots
    && LogOK(h.logs, b.log, t)
    && (b.cand == v ==> LogOK(h.logs, b.log, t - 1))
    && (b.cand != v ==>
          && (b.cand, t) in h.ballots
          && h.ballots[(b.cand, t)].cand == b.cand
          && UpToDate(h.ballots[(b.cand, t)].log, b.log))
  }

  lemma BallotOKs(h: History, v: NodeId, t: nat, b: Ballot)
    requires Ballots(h) && FreshBallot(h, v, t, b)
    ensures Ballots(WithBallot(h, v, t, b))
  {
    var h' := WithBallot(h, v, t, b);
    forall w, u | (w, u) in h'.ballots ensures BallotOK(h', w, u) {
      if (w, u) != (v, t) {
        assert BallotOK(h, w, u);
      } else if b.cand != v {
        assert BallotOK(h, b.cand, t);
      }
    }
  }

  lemma BallotElected(h: History, v: NodeId, t: nat, b: Ballot)
    requires Elected(h) && (v, t) !in h.ballots
    ensures Elected(WithBallot(h, v, t, b))
  {
    var h' := WithBallot(h, v, t, b);
    forall u | u in h'.leader ensures ElectedOK(h', u) {
      assert ElectedOK(h, u);
    }
  }

  lemma BallotStillHolds(h: History, v: NodeId, t: nat, b: Ballot)
    requires BallotsHold(h) && (v, t) !in h.ballots
    requires forall u :: (v, u) in h.acks ==> BallotHolds(WithBallot(h, v, t, b), v, t, u)
    ensures BallotsHold(WithBallot(h, v, t, b))
  {
    var h' := WithBallot(h, v, t, b);
    forall w, t2, u | (w, t2) in h'.ballots && (w, u) in h'.acks ensures BallotHolds(h', w, t2, u) {
      if (w, t2) != (v, t) {
        assert BallotHolds(h, w, t2, u);
      }
    }
  }

  lemma BallotHistory(h: History, v: NodeId, t: nat, b: Ballot)
    requires HistoryOK(h) && FreshBallot(h, v, t, b)
    requires forall u :: (v, u) in h.acks ==> BallotHolds(WithBallot(h, v, t, b), v, t, u)
    ensures HistoryOK(WithBallot(h, v, t, b))
    ensures Extends(h, WithBallot(h, v, t, b)) && OnlyBy(h, WithBallot(h, v, t, b), v)
  {
    BallotOKs(h, v, t, b);
    BallotElected(h, v, t, b);
    BallotStillHolds(h, v, t, b);
  }

  /** If the election of term t is already decided, a ballot cast now was not counted in it. */
  lemma LateBallot(h: History, v: NodeId, t: nat)
    requires Shape(h) && Elected(h) && (v, t) !in h.ballots && t in h.voters
    ensures v !in h.voters[t]
  {
    assert ElectedOK(h, t);
  }

  // ---------------------------------------------------------------- standing

  function Standing(n: NodeId, x: Node, acked: map<NodeId, nat>): Node {
    x.(term := x.term + 1, vote := n, role := Candidate, granted := {n}, acked := acked)
  }

  function StandHistory(h: History, n: NodeId, x: Node): History {
    WithBallot(h, n, x.term + 1, Ballot(n, x.log))
  }

  lemma StandHolds(h: History, n: NodeId, x: Node, u: nat)
    requires Shape(h) && Elected(h) && NodeOK(h, n, x) && (n, u) in h.acks
    ensures BallotHolds(StandHistory(h, n, x), n, x.term + 1, u)
  {
    assert AckOK(h, n, x, u);
    if x.term + 1 in h.voters {
      LateBallot(h, n, x.term + 1);
    }
  }

  lemma StandHistoryOK(h: History, n: NodeId, x: Node)
    requires HistoryOK(h) && NodeOK(h, n, x) && n in h.peers
    ensures HistoryOK(StandHistory(h, n, x))
    ensures Extends(h, StandHistory(h, n, x)) && OnlyBy(h, StandHistory(h, n, x), n)
  {
    LogOKGrown(h.logs, h.logs, x.log, x.term, x.term + 1);
    forall u | (n, u) in h.acks ensures BallotHolds(StandHistory(h, n, x), n, x.term + 1, u) {
      StandHolds(h, n, x, u);
    }
    BallotHistory(h, n, x.term + 1, Ballot(n, x.log));
  }

  lemma StandNode(h: History, n: NodeId, x: Node, acked: map<NodeId, nat>)
    requires NodeOK(h, n, x) && n in h.peers && NONE !in h.peers
    ensures NodeOK(StandHistory(h, n, x), n, Standing(n, x, acked))
  {
    var h', x' := StandHistory(h, n, x), Standing(n, x, acked);
    LogOKGrown(h.logs, h.logs, x.log, x.term, x'.term);
    CommittedStable(h, h', x.log, x.commit, x.term, x'.term);
    forall t | (n, t) in h'.acks ensures AckOK(h', n, x', t) {
      assert AckOK(h, n, x, t);
      HoldsAllGrown(h.logs, h'.logs, x.log, t, h.acks[(n, t)], x.term, x'.term);
    }
    forall u | u in h'.leader ensures WonOK(h', n, x', u) {
      assert WonOK(h, n, x, u);
    }
  }

  lemma StandKeeps(s: State, n: NodeId, acked: map<NodeId, nat>)
    requires Inv(s) && n in s.h.peers
    ensures Inv(Put(s, StandHistory(s.h, n, s.nodes[n]), n, Standing(n, s.nodes[n], acked)))
  {
    StandHistoryOK(s.h, n, s.nodes[n]);
    StandNode(s.h, n, s.nodes[n], acked);
    PutKeeps(s, StandHistory(s.h, n, s.nodes[n]), n, Standing(n, s.nodes[n], acked));
  }

  // ---------------------------------------------------------------- voting for another

  function GrantHistory(h: History, n: NodeId, x: Node, c: NodeId): History {
    if x.vote == c then h else WithBallot(h, n, x.term, Ballot(c, x.log))
  }

  ghost predicate MayGrant(h: History, n: NodeId, x: Node, c: NodeId) {
    && x.role.Follower? && c in h.peers && c != n
    && (x.vote == NONE || x.vote == c)
    && (c, x.term) in h.ballots && h.ballots[(c, x.term)].cand == c
    && UpToDate(h.ballots[(c, x.term)].log, x.log)
  }

  lemma GrantHolds(h: History, n: NodeId, x: Node, c: NodeId, u: nat)
    requires Shape(h) && Elected(h) && NodeOK(h, n, x) && MayGrant(h, n, x, c) && x.vote == NONE
    requires h.boot < x.term && (n, u) in h.acks && c != NONE
    ensures BallotHolds(GrantHistory(h, n, x, c), n, x.term, u)
  {
    assert AckOK(h, n, x, u);
    if x.term in h.voters {
      LateBallot(h, n, x.term);
    } else if u < x.term {
      var bound := x.term - 1;
      forall i | 0 <= i <= h.acks[(n, u)] ensures Holds(h.logs, x.log, u, i, bound) {
        assert Holds(h.logs, x.log, u, i, x.term);
      }
    }
  }

  lemma GrantNode(h: History, n: NodeId, x: Node, c: NodeId)
    requires NodeOK(h, n, x) && MayGrant(h, n, x, c) && c != NONE
    ensures NodeOK(GrantHistory(h, n, x, c), n, x.(vote := c))
  {
    var h', x' := GrantHistory(h, n, x, c), x.(vote := c);
    CommittedStable(h, h', x.log, x.commit, x.term, x.term);
    forall t | (n, t) in h'.acks ensures AckOK(h', n, x', t) {
      assert AckOK(h, n, x, t);
    }
    forall u | u in h'.leader ensures WonOK(h', n, x', u) {
      assert WonOK(h, n, x, u);
    }
  }

  lemma GrantKeeps(s: State, n: NodeId, c: NodeId)
    requires Inv(s) && n in s.h.peers && MayGrant(s.h, n, s.nodes[n], c)
    ensures Inv(Put(s, GrantHistory(s.h, n, s.nodes[n], c), n, s.nodes[n].(vote := c)))
  {
    var h, x := s.h, s.nodes[n];
    GrantNode(h, n, x, c);
    if x.vote == c {
      SetKeeps(s, n, x.(vote := c));
    } else {
      assert BallotOK(h, c, x.term);
      forall u | (n, u) in h.acks ensures BallotHolds(GrantHistory(h, n, x, c), n, x.term, u) {
        GrantHolds(h, n, x, c, u);
      }
      BallotHistory(h, n, x.term, Ballot(c, x.log));
      PutKeeps(s, GrantHistory(h, n, x, c), n, x.(vote := c));
    }
  }

  // ---------------------------------------------------------------- winning

  /** The log of a new leader: its old log and one empty entry of the new term. */
  function FirstEntry(x: Node): Entry {
    Entry(x.term, |x.log| + 1, Nil)
  }

  function WinHistory(h: History, n: NodeId, x: Node): History {
    var l := x.log + [FirstEntry(x)];
    h.(logs := h.logs[x.term := l],
       leader := h.leader[x.term := n],
       voters := h.voters[x.term := x.granted],
       acks := h.acks[(n, x.term) := |l|])
  }

  function Won(n: NodeId, x: Node, peers: set<NodeId>): Node {
    var l := x.log + [FirstEntry(x)];
    x.(role := Leader, log := l, granted := {}, acked := map v | v in peers :: if v == n then |l| else 0)
  }

  ghost predicate MayWin(h: History, n: NodeId, x: Node) {
    x.role.Candidate? && n in h.peers && Majority(x.granted, h.peers)
  }

  /** Election safety: nobody has won the term of a candidate with a majority. */
  lemma NobodyWonYet(h: History, n: NodeId, x: Node)
    requires HistoryOK(h) && NodeOK(h, n, x) && MayWin(h, n, x)
    ensures x.term !in h.logs && x.term !in h.leader && x.term !in h.voters
    ensures (n, x.term) in h.ballots && h.boot < x.term
  {
    assert BallotOK(h, n, x.term);
    if x.term in h.leader {
      assert WonOK(h, n, x, x.term);
      assert ElectedOK(h, x.term);
      var v := Overlap(x.granted, h.voters[x.term], h.peers);
    }
  }

  lemma WinLogs(h: History, n: NodeId, x: Node)
    requires LeaderLogs(h) && LogOK(h.logs, x.log, x.term) && x.term !in h.logs && 1 <= x.term
    ensures LeaderLogs(WinHistory(h, n, x)) && Grown(h.logs, WinHistory(h, n, x).logs)
    ensures LogOK(WinHistory(h, n, x).logs, x.log + [FirstEntry(x)], x.term)
  {
    var h' := WinHistory(h, n, x);
    var l := x.log + [FirstEntry(x)];
    forall k | 0 <= k < |l| ensures EntryOK(h'.logs, l, x.term, k) {
      if k < |x.log| {
        assert EntryOK(h.logs, x.log, x.term, k);
        assert l[..k + 1] == x.log[..k + 1];
      }
    }
    forall t | t in h'.logs ensures LogOK(h'.logs, h'.logs[t], t) {
      if t != x.term {
        assert LogOK(h.logs, h.logs[t], t);
        LogOKGrown(h.logs, h'.logs, h.logs[t], t, t);
      }
    }
  }

  lemma WinBallots(h: History, n: NodeId, x: Node)
    requires Ballots(h) && Grown(h.logs, WinHistory(h, n, x).logs)
    ensures Ballots(WinHistory(h, n, x))
  {
    var h' := WinHistory(h, n, x);
    forall v, t | (v, t) in h'.ballots ensures BallotOK(h', v, t) {
      assert BallotOK(h, v, t);
      var c := h.ballots[(v, t)].cand;
      LogOKGrown(h.logs, h'.logs, h.ballots[(v, t)].log, t, t);
      LogOKGrown(h.logs, h'.logs, h.ballots[(c, t)].log, t - 1, t - 1);
    }
  }

  lemma WinElected(h: History, n: NodeId, x: Node)
    requires Elected(h) && VoteOK(h, n, x) && MayWin(h, n, x)
    requires x.term !in h.logs && h.boot < x.term
    ensures Elected(WinHistory(h, n, x))
  {
    var h' := WinHistory(h, n, x);
    forall t | t in h'.leader ensures ElectedOK(h', t) {
      if t != x.term {
        assert ElectedOK(h, t);
      }
    }
  }

  lemma WinHolds(h: History, n: NodeId, x: Node)
    requires BallotsHold(h) && Grown(h.logs, WinHistory(h, n, x).logs)
    requires VoteOK(h, n, x) && x.term !in h.voters && AcksBounded(h) && x.term !in h.logs
    ensures BallotsHold(WinHistory(h, n, x))
  {
    var h' := WinHistory(h, n, x);
    forall v, t2, t | (v, t2) in h'.ballots && (v, t) in h'.acks ensures BallotHolds(h', v, t2, t) {
      if (v, t) != (n, x.term) {
        assert BallotHolds(h, v, t2, t);
        if t < t2 && (t2 in h'.voters ==> v in h'.voters[t2]) {
          HoldsAllGrown(h.logs, h'.logs, h.ballots[(v, t2)].log, t, h.acks[(v, t)], t2 - 1, t2 - 1);
        }
      }
    }
  }

  lemma WinHistoryOK(h: History, n: NodeId, x: Node)
    requires HistoryOK(h) && NodeOK(h, n, x) && MayWin(h, n, x)
    ensures HistoryOK(WinHistory(h, n, x))
    ensures Extends(h, WinHistory(h, n, x)) && OnlyBy(h, WinHistory(h, n, x), n)
  {
    NobodyWonYet(h, n, x);
    WinLogs(h, n, x);
    WinBallots(h, n, x);
    WinElected(h, n, x);
    WinHolds(h, n, x);
  }

  lemma WinCommit(h: History, n: NodeId, x: Node)
    requires Committed(h, x.log, x.commit, x.term) && Extends(h, WinHistory(h, n, x))
    ensures Committed(WinHistory(h, n, x), x.log + [FirstEntry(x)], x.commit, x.term)
  {
    var h', l := WinHistory(h, n, x), x.log + [FirstEntry(x)];
    assert Agree(x.log, l, |x.log|);
    AgreeLess(x.log, l, |x.log|, x.commit);
    CommittedKept(h, x.log, l, x.commit, x.commit, x.term);
    CommittedStable(h, h', l, x.commit, x.term, x.term);
  }

  lemma WinWins(h: History, n: NodeId, x: Node)
    requires Wins(h, n, x) && x.term !in h.leader && x.term !in h.logs
    ensures Wins(WinHistory(h, n, x), n, Won(n, x, h.peers))
  {
    var h', x' := WinHistory(h, n, x), Won(n, x, h.peers);
    forall u | u in h'.leader ensures WonOK(h', n, x', u) {
      if u != x.term {
        assert WonOK(h, n, x, u);
      }
    }
  }

  lemma WinNode(h: History, n: NodeId, x: Node)
    requires HistoryOK(h) && NodeOK(h, n, x) && MayWin(h, n, x)
    requires Extends(h, WinHistory(h, n, x))
    ensures NodeOK(WinHistory(h, n, x), n, Won(n, x, h.peers))
  {
    NobodyWonYet(h, n, x);
    WinLogs(h, n, x);
    WinCommit(h, n, x);
    WinAcks(h, n, x);
    WinWins(h, n, x);
  }

  lemma WinAcks(h: History, n: NodeId, x: Node)
    requires AcksOK(h, n, x) && x.term !in h.logs && Grown(h.logs, WinHistory(h, n, x).logs)
    ensures AcksOK(WinHistory(h, n, x), n, Won(n, x, h.peers))
  {
    var h', x' := WinHistory(h, n, x), Won(n, x, h.peers);
    forall t | (n, t) in h'.acks ensures AckOK(h', n, x', t) {
      if t == x.term {
        forall i | 0 <= i <= |x'.log| ensures Holds(h'.logs, x'.log, t, i, x'.term) {
          assert Agree(x'.log, h'.logs[t], i);
        }
      } else {
        assert AckOK(h, n, x, t);
        forall i | 0 <= i <= h.acks[(n, t)] ensures Holds(h'.logs, x'.log, t, i, x'.term) {
          HoldsGrown(h.logs, h'.logs, x.log, t, i, x.term, x.term);
          assert x.log <= x'.log;
          HoldsKept(h'.logs, x.log, x'.log, t, i, x.term);
        }
      }
    }
  }

  lemma WinKeeps(s: State, n: NodeId)
    requires Inv(s) && n in s.h.peers && MayWin(s.h, n, s.nodes[n])
    ensures Inv(Put(s, WinHistory(s.h, n, s.nodes[n]), n, Won(n, s.nodes[n], s.h.peers)))
  {
    WinHistoryOK(s.h, n, s.nodes[n]);
    WinNode(s.h, n, s.nodes[n]);
    PutKeeps(s, WinHistory(s.h, n, s.nodes[n]), n, Won(n, s.nodes[n], s.h.peers));
  }
}
