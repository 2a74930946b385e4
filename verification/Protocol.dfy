/** The raft protocol with everything local to a node removed: what remains of a node is
    its term, vote, role, log, commit index, granted votes and match indices. A history
    records which logs leaders built, who voted with which log, and how far each node has
    acknowledged each leader. The safety argument of raft is carried out on this level;
    module Refinement connects it to the handlers of a real node. */
module Protocol {
  import opened Types
  import opened ProtocolLogs
  import opened Quorums

  datatype Node = Node(
    term: nat,
    vote: NodeId,
    role: Role,
    log: Log,
    commit: nat,
    granted: set<NodeId>,
    acked: map<NodeId, nat>)

  /** A vote: for whom, and the voter's own log at that moment. */
  datatype Ballot = Ballot(cand: NodeId, log: Log)

  /** peers, boot: the fixed membership and the term of the bootstrap entries.
      logs: for every elected term (and boot) the log its leader built.
      leader, voters: who won each term, and with whose votes.
      ballots: the vote each node cast in each term.
      acks: how much of the leader's log each node has acknowledged in each term. */
  datatype History = History(
    peers: set<NodeId>,
    boot: nat,
    logs: Logs,
    leader: map<nat, NodeId>,
    voters: map<nat, set<NodeId>>,
    ballots: map<(NodeId, nat), Ballot>,
    acks: map<(NodeId, nat), nat>)

  datatype State = State(h: History, nodes: map<NodeId, Node>, net: set<Message>)

  // ---------------------------------------------------------------- commitment

  ghost function Ackers(h: History, t: nat, i: nat): set<NodeId> {
    set v | v in h.peers && (v, t) in h.acks && i <= h.acks[(v, t)]
  }

  /** A majority acknowledged, in term t, an entry of term t at index i. */
  ghost predicate Chosen(h: History, t: nat, i: nat) {
    && t in h.logs
    && 1 <= i <= |h.logs[t]|
    && h.logs[t][i - 1].term == t
    && Majority(Ackers(h, t, i), h.peers)
  }

  ghost predicate Witness(h: History, l: Log, c: nat, bound: nat, t: nat, i: nat) {
    t <= bound && c <= i && Chosen(h, t, i) && Agree(l, h.logs[t], c)
  }

  /** The first c entries of l are covered by a choice made in a term up to `bound`. */
  ghost predicate Committed(h: History, l: Log, c: nat, bound: nat) {
    c <= |l| && (c == 0 || exists t, i :: Witness(h, l, c, bound, t, i))
  }

  // ---------------------------------------------------------------- invariants of the history

  ghost predicate Shape(h: History) {
    && h.peers != {}
    && NONE !in h.peers
    && h.leader.Keys == h.voters.Keys
    && h.logs.Keys == h.leader.Keys + {h.boot}
  }

  ghost predicate BallotOK(h: History, v: NodeId, t: nat) {
    && (v, t) in h.ballots
    && v in h.peers
    && h.boot < t
    && LogOK(h.logs, h.ballots[(v, t)].log, t)
    && var c := h.ballots[(v, t)].cand;
       && c in h.peers
       && (c, t) in h.ballots
       && h.ballots[(c, t)].cand == c
       && UpToDate(h.ballots[(c, t)].log, h.ballots[(v, t)].log)
       && LogOK(h.logs, h.ballots[(c, t)].log, t - 1)
  }

  ghost predicate Ballots(h: History) {
    forall v, t {:trigger BallotOK(h, v, t)} :: (v, t) in h.ballots ==> BallotOK(h, v, t)
  }

  /** What the leader of term t started from, and what it has added since. */
  ghost predicate ElectedOK(h: History, t: nat) {
    && t in h.leader && t in h.voters && t in h.logs && t > h.boot
    && var l := h.leader[t];
       && l in h.peers
       && h.voters[t] <= h.peers
       && Majority(h.voters[t], h.peers)
       && (forall v | v in h.voters[t] :: (v, t) in h.ballots && h.ballots[(v, t)].cand == l)
       && (l, t) in h.ballots
       && (l, t) in h.acks
       && h.acks[(l, t)] == |h.logs[t]|
       && h.ballots[(l, t)].log < h.logs[t]
       && (forall k | |h.ballots[(l, t)].log| <= k < |h.logs[t]| :: h.logs[t][k].term == t)
  }

  ghost predicate Elected(h: History) {
    forall t {:trigger ElectedOK(h, t)} | t in h.leader :: ElectedOK(h, t)
  }

  ghost predicate LeaderLogs(h: History) {
    forall t {:trigger LogOK(h.logs, h.logs[t], t)} | t in h.logs :: LogOK(h.logs, h.logs[t], t)
  }

  /** A vote cast before its election was decided was cast by a node that still held
      whatever it had acknowledged to earlier leaders. */
  ghost predicate BallotHolds(h: History, v: NodeId, t2: nat, t: nat) {
    (v, t2) in h.ballots && (v, t) in h.acks && t < t2 && (t2 in h.voters ==> v in h.voters[t2]) ==>
      HoldsAll(h.logs, h.ballots[(v, t2)].log, t, h.acks[(v, t)], t2 - 1)
  }

  ghost predicate BallotsHold(h: History) {
    forall v, t2, t {:trigger BallotHolds(h, v, t2, t)} ::
      (v, t2) in h.ballots && (v, t) in h.acks ==> BallotHolds(h, v, t2, t)
  }

  ghost predicate AcksBounded(h: History) {
    forall v, t :: (v, t) in h.acks ==> v in h.peers && t in h.logs && h.acks[(v, t)] <= |h.logs[t]|
  }

  ghost predicate HistoryOK(h: History) {
    && Shape(h)
    && Ballots(h)
    && Elected(h)
    && LeaderLogs(h)
    && BallotsHold(h)
    && AcksBounded(h)
  }

  // ---------------------------------------------------------------- invariants of a node

  ghost predicate VoteOK(h: History, n: NodeId, x: Node) {
    && (forall t :: (n, t) in h.ballots ==> t <= x.term)
    && (x.vote == NONE ==> (n, x.term) !in h.ballots)
    && (x.vote != NONE ==> (n, x.term) in h.ballots && h.ballots[(n, x.term)].cand == x.vote)
    && (x.role.Candidate? ==>
          && n != NONE && x.vote == n
          && x.log == h.ballots[(n, x.term)].log
          && x.granted <= h.peers
          && forall v | v in x.granted :: (v, x.term) in h.ballots && h.ballots[(v, x.term)].cand == n)
  }

  ghost predicate WonOK(h: History, n: NodeId, x: Node, t: nat) {
    t in h.leader && t in h.logs && h.leader[t] == n ==>
      t <= x.term && (x.term == t ==> !x.role.Candidate? && x.log == h.logs[t])
  }

  ghost predicate Wins(h: History, n: NodeId, x: Node) {
    forall t {:trigger WonOK(h, n, x, t)} :: t in h.leader ==> WonOK(h, n, x, t)
  }

  ghost predicate Leads(h: History, n: NodeId, x: Node) {
    x.role.Leader? ==>
      && x.term in h.leader && h.leader[x.term] == n
      && x.acked.Keys == h.peers
      && forall v | v in h.peers :: x.acked[v] == 0 || ((v, x.term) in h.acks && x.acked[v] <= h.acks[(v, x.term)])
  }

  ghost predicate AckOK(h: History, n: NodeId, x: Node, t: nat) {
    (n, t) in h.acks ==>
      t <= x.term && HoldsAll(h.logs, x.log, t, h.acks[(n, t)], x.term)
  }

  ghost predicate AcksOK(h: History, n: NodeId, x: Node) {
    forall t {:trigger AckOK(h, n, x, t)} :: (n, t) in h.acks ==> AckOK(h, n, x, t)
  }

  ghost predicate NodeOK(h: History, n: NodeId, x: Node) {
    && x.term >= h.boot
    && VoteOK(h, n, x)
    && Wins(h, n, x)
    && Leads(h, n, x)
    && LogOK(h.logs, x.log, x.term)
    && AcksOK(h, n, x)
    && Committed(h, x.log, x.commit, x.term)
  }

  // ---------------------------------------------------------------- invariants of a message

  ghost predicate FromLeader(h: History, m: Message) {
    m.term in h.leader && m.from == h.leader[m.term] && m.to != m.from && m.term in h.logs
  }

  ghost predicate AppOK(h: History, m: Message) {
    && FromLeader(h, m)
    && var l := h.logs[m.term];
       && m.index + |m.entries| <= |l|
       && m.entries == l[m.index..m.index + |m.entries|]
       && m.logTerm == TermAt(l, m.index)
       && Committed(h, l, m.commit, m.term)
  }

  ghost predicate HeartbeatOK(h: History, m: Message) {
    && FromLeader(h, m)
    && Committed(h, h.logs[m.term], m.commit, m.term)
    && (m.commit == 0 || ((m.to, m.term) in h.acks && m.commit <= h.acks[(m.to, m.term)]))
  }

  /** The messages that travel between nodes. Forwarded proposals carry no term; everything
      else carries the sender's, and goes to another node. */
  predicate Wire(m: Message) {
    match m.kind
    case MsgProp => m.term == 0
    case MsgApp => m.term >= 1 && m.to != m.from
    case MsgAppResp => m.term >= 1 && m.to != m.from
    case MsgVote => m.term >= 1 && m.to != m.from
    case MsgVoteResp => m.term >= 1 && m.to != m.from
    case MsgHeartbeat => m.term >= 1 && m.to != m.from
    case MsgHeartbeatResp => m.term >= 1 && m.to != m.from
    case _ => false
  }

  ghost predicate MessageOK(h: History, m: Message) {
    && Wire(m) && m.from in h.peers
    && (m.kind.MsgApp? ==> AppOK(h, m))
    && (m.kind.MsgHeartbeat? ==> HeartbeatOK(h, m))
    && (m.kind.MsgAppResp? && !m.reject ==>
          (m.from, m.term) in h.acks && m.index <= h.acks[(m.from, m.term)])
    && (m.kind.MsgVote? ==>
          && (m.from, m.term) in h.ballots
          && h.ballots[(m.from, m.term)].cand == m.from
          && m.index == |h.ballots[(m.from, m.term)].log|
          && m.logTerm == LastTerm(h.ballots[(m.from, m.term)].log))
    && (m.kind.MsgVoteResp? && !m.reject ==>
          (m.from, m.term) in h.ballots && h.ballots[(m.from, m.term)].cand == m.to)
  }

  // ---------------------------------------------------------------- the whole state

  ghost predicate NodesOK(h: History, nodes: map<NodeId, Node>) {
    && nodes.Keys == h.peers
    && forall n {:trigger NodeOK(h, n, nodes[n])} | n in nodes :: NodeOK(h, n, nodes[n])
  }

  ghost predicate NetOK(h: History, net: set<Message>) {
    forall m {:trigger MessageOK(h, m)} | m in net :: MessageOK(h, m)
  }

  ghost predicate Inv(s: State) {
    HistoryOK(s.h) && NodesOK(s.h, s.nodes) && NetOK(s.h, s.net)
  }

  // ---------------------------------------------------------------- leader completeness

  ghost function ElectionLog(h: History, t: nat): Log
    requires t in h.leader && (h.leader[t], t) in h.ballots
  {
    h.ballots[(h.leader[t], t)].log
  }

  /** What a majority acknowledged in term t was already in the log with which every
      leader of a later term won its election. */
  lemma {:induction false} LeaderCompleteness(h: History, t: nat, i: nat, t2: nat)
    requires HistoryOK(h)
    requires Chosen(h, t, i)
    requires t2 in h.leader && t < t2
    ensures ElectedOK(h, t2) && Agree(ElectionLog(h, t2), h.logs[t], i)
    decreases t2, 2
  {
    assert ElectedOK(h, t2);
    var v := Overlap(Ackers(h, t, i), h.voters[t2], h.peers);
    VoterKept(h, t, i, t2, v);
    CandidateCovers(h, t, i, t2, v);
  }

  /** The voter in the overlap still had those entries when it voted. */
  lemma {:induction false} VoterKept(h: History, t: nat, i: nat, t2: nat, v: NodeId)
    requires HistoryOK(h)
    requires Chosen(h, t, i) && t2 in h.leader && t < t2
    requires ElectedOK(h, t2) && v in Ackers(h, t, i) && v in h.voters[t2]
    ensures Agree(h.ballots[(v, t2)].log, h.logs[t], i)
    decreases t2, 0
  {
    var w := h.ballots[(v, t2)].log;
    assert BallotHolds(h, v, t2, t);
    assert Holds(h.logs, w, t, i, t2 - 1);
    if !Agree(w, h.logs[t], i) {
      var t1 :| t < t1 <= t2 - 1 && Conflict(h.logs, t1, t, i);
      LaterLeaderShares(h, t, i, t1);
      ConflictNotAgree(h.logs, t1, t, i);
    }
  }

  /** The winner's log was at least as up to date, so it has them too. */
  lemma {:induction false} CandidateCovers(h: History, t: nat, i: nat, t2: nat, v: NodeId)
    requires HistoryOK(h)
    requires Chosen(h, t, i) && t2 in h.leader && t < t2
    requires ElectedOK(h, t2) && v in h.voters[t2]
    requires Agree(h.ballots[(v, t2)].log, h.logs[t], i)
    ensures Agree(ElectionLog(h, t2), h.logs[t], i)
    decreases t2, 0
  {
    var w := h.ballots[(v, t2)].log;
    var c := ElectionLog(h, t2);
    BallotFacts(h, v, t2);
    LastTermReaches(h.logs, c, t2 - 1, w, t2, t, i);
    var t1 := LastTerm(c);
    if t1 == t {
      AgreeLess(c, h.logs[t], |c|, i);
    } else {
      LaterLeaderShares(h, t, i, t1);
      LaterLogCovers(h.logs, c, t2 - 1, t, i);
    }
  }

  lemma {:induction false} LaterLeaderShares(h: History, t: nat, i: nat, t1: nat)
    requires HistoryOK(h)
    requires Chosen(h, t, i) && t1 in h.logs && t < t1
    ensures Agree(h.logs[t], h.logs[t1], i)
    decreases t1, 3
  {
    BootFirst(h, t, t1);
    LeaderCompleteness(h, t, i, t1);
    AgreeGrown(h.logs[t], ElectionLog(h, t1), h.logs[t1], i);
  }

  lemma BallotFacts(h: History, v: NodeId, t: nat)
    requires Ballots(h) && ElectedOK(h, t) && v in h.voters[t]
    ensures LogOK(h.logs, ElectionLog(h, t), t - 1)
    ensures LogOK(h.logs, h.ballots[(v, t)].log, t)
    ensures UpToDate(ElectionLog(h, t), h.ballots[(v, t)].log)
  {
    assert BallotOK(h, v, t);
  }

  /** Every later term that has a log was won by some leader. */
  lemma BootFirst(h: History, t: nat, t2: nat)
    requires Shape(h) && Elected(h) && t in h.logs && t2 in h.logs && t < t2
    ensures t2 in h.leader
  {
    if t in h.leader {
      assert ElectedOK(h, t);
    }
  }

  // ---------------------------------------------------------------- what is committed is shared

  lemma ChosenInLater(h: History, t: nat, i: nat, t2: nat)
    requires HistoryOK(h) && Chosen(h, t, i) && t2 in h.logs && t <= t2
    ensures Agree(h.logs[t2], h.logs[t], i)
  {
    if t < t2 {
      LaterLeaderShares(h, t, i, t2);
    }
  }

  /** A leader of term t has everything committed in terms up to t. */
  lemma LeaderHasCommitted(h: History, l: Log, c: nat, bound: nat, t: nat)
    requires HistoryOK(h) && Committed(h, l, c, bound) && t in h.logs && bound <= t
    ensures Agree(l, h.logs[t], c)
  {
    if c > 0 {
      var u, i :| Witness(h, l, c, bound, u, i);
      ChosenInLater(h, u, i, t);
      AgreeLess(h.logs[t], h.logs[u], i, c);
    }
  }

  /** Any two committed prefixes agree as far as both reach. */
  lemma CommittedAgree(h: History, a: Log, c: nat, aBound: nat, b: Log, d: nat, bBound: nat)
    requires HistoryOK(h) && Committed(h, a, c, aBound) && Committed(h, b, d, bBound)
    ensures Agree(a, b, Min(c, d))
  {
    if c > 0 && d > 0 {
      var t, i :| Witness(h, a, c, aBound, t, i);
      var u, j :| Witness(h, b, d, bBound, u, j);
      var k := Min(c, d);
      AgreeLess(a, h.logs[t], c, k);
      AgreeLess(b, h.logs[u], d, k);
      if t <= u {
        ChosenInLater(h, t, i, u);
        AgreeLess(h.logs[u], h.logs[t], i, k);
      } else {
        ChosenInLater(h, u, j, t);
        AgreeLess(h.logs[t], h.logs[u], j, k);
      }
    }
  }

  // ---------------------------------------------------------------- growth of the history

  /** The history only gains: logs grow at their end, votes and winners are never revised,
      acknowledgements never shrink. */
  ghost predicate Extends(h: History, h': History) {
    && h'.peers == h.peers && h'.boot == h.boot
    && Grown(h.logs, h'.logs)
    && (forall t | t in h.leader :: t in h'.leader && h'.leader[t] == h.leader[t])
    && (forall k | k in h.ballots :: k in h'.ballots && h'.ballots[k] == h.ballots[k])
    && (forall k | k in h.acks :: k in h'.acks && h.acks[k] <= h'.acks[k])
  }

  lemma ExtendsTransitive(h: History, h1: History, h2: History)
    requires Extends(h, h1) && Extends(h1, h2)
    ensures Extends(h, h2)
  {
  }

  lemma ChosenStable(h: History, h': History, t: nat, i: nat)
    requires Extends(h, h') && Chosen(h, t, i)
    ensures Chosen(h', t, i)
  {
    MajorityGrows(Ackers(h, t, i), Ackers(h', t, i), h.peers);
  }

  lemma CommittedStable(h: History, h': History, l: Log, c: nat, bound: nat, bound': nat)
    requires Extends(h, h') && Committed(h, l, c, bound) && bound <= bound'
    ensures Committed(h', l, c, bound')
  {
    if c > 0 {
      var t, i :| Witness(h, l, c, bound, t, i);
      ChosenStable(h, h', t, i);
      AgreeGrown(l, h.logs[t], h'.logs[t], c);
      assert Witness(h', l, c, bound', t, i);
    }
  }

  /** A committed prefix stays committed in any log that keeps it. */
  lemma CommittedKept(h: History, l: Log, l': Log, c: nat, d: nat, bound: nat)
    requires Committed(h, l, c, bound) && d <= c && Agree(l, l', d)
    ensures Committed(h, l', d, bound)
  {
    if d > 0 {
      var t, i :| Witness(h, l, c, bound, t, i);
      AgreeLess(l, h.logs[t], c, d);
      assert Witness(h, l', d, bound, t, i);
    }
  }

  lemma MessageStable(h: History, h': History, m: Message)
    requires Extends(h, h') && MessageOK(h, m)
    ensures MessageOK(h', m)
  {
    if m.kind.MsgApp? || m.kind.MsgHeartbeat? {
      var l, l' := h.logs[m.term], h'.logs[m.term];
      CommittedStable(h, h', l, m.commit, m.term, m.term);
      CommittedKept(h', l, l', m.commit, m.commit, m.term);
    }
  }
}
