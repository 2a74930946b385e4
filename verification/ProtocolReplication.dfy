/** Extending the leader's log, and followers taking it over. */
module ProtocolReplication {
  import opened Types
  import opened ProtocolLogs
  import opened Quorums
  import opened Protocol
  import opened ProtocolSteps

  // ---------------------------------------------------------------- a leader appends

  function ProposeHistory(h: History, n: NodeId, x: Node, es: Log): History {
    h.(logs := h.logs[x.term := x.log + es], acks := h.acks[(n, x.term) := |x.log + es|])
  }

  function Proposed(n: NodeId, x: Node, es: Log): Node {
    x.(log := x.log + es, acked := x.acked[n := |x.log + es|])
  }

  /** Entries stamped with the leader's term and the positions they will take. */
  ghost predicate Stamped(x: Node, es: Log) {
    forall k | 0 <= k < |es| :: es[k].term == x.term && es[k].index == |x.log| + 1 + k
  }

  ghost predicate MayPropose(h: History, n: NodeId, x: Node, es: Log) {
    x.role.Leader? && n in h.peers && Stamped(x, es)
  }

  lemma LeaderOwnsLog(h: History, n: NodeId, x: Node)
    requires HistoryOK(h) && NodeOK(h, n, x) && x.role.Leader?
    ensures x.term in h.leader && x.term in h.logs && h.leader[x.term] == n && h.logs[x.term] == x.log
    ensures ElectedOK(h, x.term) && 1 <= x.term
  {
    assert WonOK(h, n, x, x.term);
    assert ElectedOK(h, x.term);
  }

  lemma ProposeLogs(h: History, n: NodeId, x: Node, es: Log)
    requires LeaderLogs(h) && x.term in h.logs && h.logs[x.term] == x.log && 1 <= x.term && Stamped(x, es)
    ensures LeaderLogs(ProposeHistory(h, n, x, es)) && Grown(h.logs, ProposeHistory(h, n, x, es).logs)
    ensures LogOK(ProposeHistory(h, n, x, es).logs, x.log + es, x.term)
  {
    var h', l := ProposeHistory(h, n, x, es), x.log + es;
    assert LogOK(h.logs, h.logs[x.term], x.term);
    forall k | 0 <= k < |l| ensures EntryOK(h'.logs, l, x.term, k) {
      if k < |x.log| {
        assert EntryOK(h.logs, x.log, x.term, k);
        var u := x.log[k].term;
        assert l[..k + 1] == x.log[..k + 1];
        AgreeGrown(l, h.logs[u], h'.logs[u], k + 1);
      }
    }
    forall t | t in h'.logs ensures LogOK(h'.logs, h'.logs[t], t) {
      if t != x.term {
        assert LogOK(h.logs, h.logs[t], t);
        LogOKGrown(h.logs, h'.logs, h.logs[t], t, t);
      }
    }
  }

  lemma GrownBallots(h: History, h': History)
    requires Ballots(h) && Grown(h.logs, h'.logs)
    requires h'.ballots == h.ballots && h'.peers == h.peers && h'.boot == h.boot
    ensures Ballots(h')
  {
    forall v, t | (v, t) in h'.ballots ensures BallotOK(h', v, t) {
      assert BallotOK(h, v, t);
      var c := h.ballots[(v, t)].cand;
      LogOKGrown(h.logs, h'.logs, h.ballots[(v, t)].log, t, t);
      LogOKGrown(h.logs, h'.logs, h.ballots[(c, t)].log, t - 1, t - 1);
    }
  }

  /** Ballots keep holding when acknowledgements grow only in the acknowledging node's
      current term, in which it cannot have voted for a later one. */
  lemma GrownHolds(h: History, h': History, n: NodeId, x: Node)
    requires BallotsHold(h) && Grown(h.logs, h'.logs) && VoteOK(h, n, x)
    requires h'.ballots == h.ballots && h'.voters == h.voters
    requires forall v, t :: (v, t) in h'.acks && (v, t) != (n, x.term) ==> (v, t) in h.acks && h'.acks[(v, t)] == h.acks[(v, t)]
    ensures BallotsHold(h')
  {
    forall v, t2, t | (v, t2) in h'.ballots && (v, t) in h'.acks ensures BallotHolds(h', v, t2, t) {
      if (v, t) != (n, x.term) && t < t2 && (t2 in h'.voters ==> v in h'.voters[t2]) {
        assert BallotHolds(h, v, t2, t);
        HoldsAllGrown(h.logs, h'.logs, h.ballots[(v, t2)].log, t, h.acks[(v, t)], t2 - 1, t2 - 1);
      }
    }
  }

  lemma ProposeElected(h: History, n: NodeId, x: Node, es: Log)
    requires Elected(h) && x.term in h.leader && x.term in h.logs
    requires h.leader[x.term] == n && h.logs[x.term] == x.log && Stamped(x, es)
    ensures Elected(ProposeHistory(h, n, x, es))
  {
    var h' := ProposeHistory(h, n, x, es);
    forall t | t in h'.leader ensures ElectedOK(h', t) {
      assert ElectedOK(h, t);
    }
  }

  lemma ProposeHistoryOK(h: History, n: NodeId, x: Node, es: Log)
    requires HistoryOK(h) && NodeOK(h, n, x) && MayPropose(h, n, x, es)
    ensures HistoryOK(ProposeHistory(h, n, x, es))
    ensures Extends(h, ProposeHistory(h, n, x, es)) && OnlyBy(h, ProposeHistory(h, n, x, es), n)
  {
    LeaderOwnsLog(h, n, x);
    ProposeLogs(h, n, x, es);
    GrownBallots(h, ProposeHistory(h, n, x, es));
    ProposeElected(h, n, x, es);
    GrownHolds(h, ProposeHistory(h, n, x, es), n, x);
  }

  lemma ProposeAcks(h: History, n: NodeId, x: Node, es: Log)
    requires AcksOK(h, n, x) && Grown(h.logs, ProposeHistory(h, n, x, es).logs)
    ensures AcksOK(ProposeHistory(h, n, x, es), n, Proposed(n, x, es))
  {
    var h', x' := ProposeHistory(h, n, x, es), Proposed(n, x, es);
    forall t | (n, t) in h'.acks ensures AckOK(h', n, x', t) {
      if t == x.term {
        forall i | 0 <= i <= |x'.log| ensures Holds(h'.logs, x'.log, t, i, x'.term) {
          assert Agree(x'.log, h'.logs[t], i);
        }
      } else {
        assert AckOK(h, n, x, t);
        forall i | 0 <= i <= h.acks[(n, t)] ensures Holds(h'.logs, x'.log, t, i, x'.term) {
          HoldsGrown(h.logs, h'.logs, x.log, t, i, x.term, x.term);
          assert x.log <= x'.log;
          HoldsKept(h'.logs, x.log, x'.log, t, i, x.term);
        }
      }
    }
  }

  lemma ProposeCommit(h: History, n: NodeId, x: Node, es: Log)
    requires Committed(h, x.log, x.commit, x.term) && Extends(h, ProposeHistory(h, n, x, es))
    ensures Committed(ProposeHistory(h, n, x, es), x.log + es, x.commit, x.term)
  {
    var l := x.log + es;
    assert Agree(x.log, l, |x.log|);
    AgreeLess(x.log, l, |x.log|, x.commit);
    CommittedKept(h, x.log, l, x.commit, x.commit, x.term);
    CommittedStable(h, ProposeHistory(h, n, x, es), l, x.commit, x.term, x.term);
  }

  lemma ProposeNode(h: History, n: NodeId, x: Node, es: Log)
    requires HistoryOK(h) && NodeOK(h, n, x) && MayPropose(h, n, x, es)
    requires Extends(h, ProposeHistory(h, n, x, es))
    ensures NodeOK(ProposeHistory(h, n, x, es), n, Proposed(n, x, es))
  {
    var h', x' := ProposeHistory(h, n, x, es), Proposed(n, x, es);
    LeaderOwnsLog(h, n, x);
    ProposeLogs(h, n, x, es);
    ProposeAcks(h, n, x, es);
    ProposeCommit(h, n, x, es);
    forall u | u in h'.leader ensures WonOK(h', n, x', u) {
      assert WonOK(h, n, x, u);
    }
  }

  lemma ProposeKeeps(s: State, n: NodeId, es: Log)
    requires Inv(s) && n in s.h.peers && MayPropose(s.h, n, s.nodes[n], es)
    ensures Inv(Put(s, ProposeHistory(s.h, n, s.nodes[n], es), n, Proposed(n, s.nodes[n], es)))
  {
    ProposeHistoryOK(s.h, n, s.nodes[n], es);
    ProposeNode(s.h, n, s.nodes[n], es);
    PutKeeps(s, ProposeHistory(s.h, n, s.nodes[n], es), n, Proposed(n, s.nodes[n], es));
  }

  // ---------------------------------------------------------------- a follower takes over entries

  /** The follower's acknowledgement in its current term rises to i. */
  function AcceptHistory(h: History, n: NodeId, x: Node, i: nat): History {
    var was := if (n, x.term) in h.acks then h.acks[(n, x.term)] else 0;
    h.(acks := h.acks[(n, x.term) := Max(was, i)])
  }

  /** Log l' takes over the leader's log: it is x.log except from a point where the leader
      is known to disagree. */
  ghost predicate TakesOver(leaderLog: Log, l: Log, l': Log) {
    forall k | 0 <= k <= |l| ::
      Agree(l, l', k) || exists j :: 0 <= j < k && j < |leaderLog| && leaderLog[j] != l[j]
  }

  ghost predicate MayAccept(h: History, n: NodeId, x: Node, l': Log, i: nat, c: nat) {
    && n in h.peers && x.role.Follower?
    && x.term in h.leader && x.term in h.logs && h.leader[x.term] != n
    && TakesOver(h.logs[x.term], x.log, l')
    && LogOK(h.logs, l', x.term)
    && Agree(l', h.logs[x.term], i)
    && Committed(h, l', c, x.term)
  }

  lemma AcceptHistoryOK(h: History, n: NodeId, x: Node, i: nat)
    requires HistoryOK(h) && NodeOK(h, n, x) && n in h.peers
    requires x.term in h.leader && x.term in h.logs && h.leader[x.term] != n && i <= |h.logs[x.term]|
    ensures HistoryOK(AcceptHistory(h, n, x, i))
    ensures Extends(h, AcceptHistory(h, n, x, i)) && OnlyBy(h, AcceptHistory(h, n, x, i), n)
  {
    var h' := AcceptHistory(h, n, x, i);
    GrownBallots(h, h');
    GrownHolds(h, h', n, x);
    AcceptElected(h, n, x, i);
  }

  lemma AcceptElected(h: History, n: NodeId, x: Node, i: nat)
    requires Elected(h) && x.term in h.leader && h.leader[x.term] != n
    ensures Elected(AcceptHistory(h, n, x, i))
  {
    var h' := AcceptHistory(h, n, x, i);
    forall t | t in h'.leader ensures ElectedOK(h', t) {
      assert ElectedOK(h, t);
    }
  }

  /** What the follower acknowledged to any leader survives the take-over, or the current
      leader is a witness against it. */
  lemma TakeOverHolds(logs: Logs, cur: nat, l: Log, l': Log, t: nat, i: nat)
    requires cur in logs && Holds(logs, l, t, i, cur) && t <= cur
    requires TakesOver(logs[cur], l, l')
    ensures Holds(logs, l', t, i, cur)
  {
    if Agree(l, logs[t], i) && !Agree(l, l', i) {
      var j :| 0 <= j < i && j < |logs[cur]| && logs[cur][j] != l[j];
      AgreePoint(l, logs[t], i, j);
      assert Conflict(logs, cur, t, i);
    }
  }

  lemma AcceptAcks(h: History, n: NodeId, x: Node, l': Log, i: nat, c: nat)
    requires AcksOK(h, n, x) && MayAccept(h, n, x, l', i, c)
    ensures AcksOK(AcceptHistory(h, n, x, i), n, x.(log := l', commit := c))
  {
    var h', x' := AcceptHistory(h, n, x, i), x.(log := l', commit := c);
    forall t | (n, t) in h'.acks ensures AckOK(h', n, x', t) {
      if (n, t) in h.acks {
        assert AckOK(h, n, x, t);
      }
      forall j | 0 <= j <= h'.acks[(n, t)] ensures Holds(h'.logs, l', t, j, x'.term) {
        if (n, t) in h.acks && j <= h.acks[(n, t)] {
          TakeOverHolds(h.logs, x.term, x.log, l', t, j);
        } else {
          AgreeLess(l', h.logs[t], i, j);
        }
      }
    }
  }

  lemma AcceptNode(h: History, n: NodeId, x: Node, l': Log, i: nat, c: nat)
    requires HistoryOK(h) && NodeOK(h, n, x) && MayAccept(h, n, x, l', i, c)
    requires Extends(h, AcceptHistory(h, n, x, i))
    ensures NodeOK(AcceptHistory(h, n, x, i), n, x.(log := l', commit := c))
  {
    var h', x' := AcceptHistory(h, n, x, i), x.(log := l', commit := c);
    AcceptAcks(h, n, x, l', i, c);
    CommittedStable(h, h', l', c, x.term, x.term);
    forall u | u in h'.leader ensures WonOK(h', n, x', u) {
      assert WonOK(h, n, x, u);
    }
  }

  lemma AcceptKeeps(s: State, n: NodeId, l': Log, i: nat, c: nat)
    requires Inv(s) && n in s.h.peers && MayAccept(s.h, n, s.nodes[n], l', i, c)
    ensures Inv(Put(s, AcceptHistory(s.h, n, s.nodes[n], i), n, s.nodes[n].(log := l', commit := c)))
  {
    AcceptHistoryOK(s.h, n, s.nodes[n], i);
    AcceptNode(s.h, n, s.nodes[n], l', i, c);
    PutKeeps(s, AcceptHistory(s.h, n, s.nodes[n], i), n, s.nodes[n].(log := l', commit := c));
  }

  // ---------------------------------------------------------------- the start

  /** The bootstrap entries all carry the bootstrap term. */
  predicate BootLog(boot: nat, start: Log) {
    forall k | 0 <= k < |start| :: start[k].term == boot && start[k].index == k + 1 && boot >= 1
  }

  /** Every node starts as a follower in the bootstrap term with the same log, all of it
      committed. */
  ghost predicate Initial(s: State, start: Log) {
    && s.h.peers != {} && NONE !in s.h.peers
    && s.h == History(s.h.peers, s.h.boot, map[s.h.boot := start], map[], map[], map[],
                      map v | v in s.h.peers :: (v, s.h.boot) := |start|)
    && BootLog(s.h.boot, start)
    && s.nodes.Keys == s.h.peers
    && (forall n | n in s.nodes ::
          && s.nodes[n].term == s.h.boot && s.nodes[n].vote == NONE && s.nodes[n].role.Follower?
          && s.nodes[n].log == start && s.nodes[n].commit == |start|)
    && s.net == {}
  }

  lemma InitialHistory(h: History, start: Log)
    requires h.peers != {} && NONE !in h.peers
    requires h == History(h.peers, h.boot, map[h.boot := start], map[], map[], map[],
                          map v | v in h.peers :: (v, h.boot) := |start|)
    requires BootLog(h.boot, start)
    ensures HistoryOK(h)
    ensures LogOK(h.logs, start, h.boot)
    ensures Committed(h, start, |start|, h.boot)
  {
    forall k | 0 <= k < |start| ensures EntryOK(h.logs, start, h.boot, k) {
    }
    if |start| > 0 {
      assert Ackers(h, h.boot, |start|) == h.peers;
      assert Witness(h, start, |start|, h.boot, h.boot, |start|);
    }
  }

  lemma InitialOK(s: State, start: Log)
    requires Initial(s, start)
    ensures Inv(s)
  {
    InitialHistory(s.h, start);
    forall n | n in s.nodes ensures NodeOK(s.h, n, s.nodes[n]) {
      forall t | (n, t) in s.h.acks ensures AckOK(s.h, n, s.nodes[n], t) {
        forall i | 0 <= i <= |start| ensures Holds(s.h.logs, start, t, i, s.h.boot) {
          assert Agree(start, s.h.logs[t], i);
        }
      }
    }
  }
}
