/** Every handler of a node is a chain of protocol moves. While the node's log has never
    been compacted, no handler panics on a message the protocol can have produced. */
module Refinement {
  import opened Types
  import opened LogView
  import opened ProgressSpec
  import opened NodeSpec
  import opened Quorums
  import opened ProtocolLogs
  import opened Protocol
  import opened ProtocolSteps
  import opened ProtocolElections
  import opened ProtocolReplication
  import opened LogRefinement

  function Acked(prs: map<NodeId, Progress>): map<NodeId, nat> {
    map v | v in prs :: prs[v].matched
  }

  function Abs(r: Raft): Node {
    Node(r.term, r.vote, r.role, r.view.ents, r.committed, Granted(r), Acked(r.prs))
  }

  /** A leader's records of its peers stay within its log. */
  predicate NextOK(r: Raft) {
    forall v | v in r.prs :: r.prs[v].matched <= Last(r) && r.prs[v].next <= Last(r) + 1
  }

  /** What holds inside a node of a fixed-membership cluster without compaction. */
  predicate Sound(peers: set<NodeId>, r: Raft) {
    && r.id in peers
    && r.prs.Keys == peers
    && r.view == Whole(r.view.ents)
    && r.maxInflight >= 1
    && (forall v | v in r.prs :: r.prs[v].size >= 1 && !r.prs[v].state.Snapshotting?)
    && (r.role.Leader? ==> NextOK(r))
  }

  /** Node r sits in protocol state s. */
  ghost predicate At(s: State, r: Raft) {
    Inv(s) && Sound(s.h.peers, r) && r.id in s.nodes && s.nodes[r.id] == Abs(r)
  }

  lemma Here(s: State, r: Raft)
    requires At(s, r)
    ensures HistoryOK(s.h) && NodeOK(s.h, r.id, Abs(r)) && r.committed <= Last(r)
    ensures Sound(s.h.peers, r) && r.id in s.h.peers && NONE !in s.h.peers
  {
    assert NodeOK(s.h, r.id, s.nodes[r.id]);
  }

  /** State s' is s after the node became r and sent out. */
  ghost predicate Follows(s: State, s': State, r: Raft, out: set<Message>) {
    && Extends(s.h, s'.h)
    && s'.nodes == s.nodes[r.id := Abs(r)]
    && s'.net == s.net + out
  }

  ghost predicate Moved(s: State, s': State, r: Raft, out: set<Message>) {
    At(s', r) && Follows(s, s', r, out)
  }

  lemma FollowsTwice(s: State, s1: State, s2: State, r1: Raft, out1: set<Message>, r2: Raft, out2: set<Message>)
    requires Follows(s, s1, r1, out1) && Follows(s1, s2, r2, out2) && r1.id == r2.id
    ensures Follows(s, s2, r2, out1 + out2)
  {
    ExtendsTransitive(s.h, s1.h, s2.h);
    assert s2.nodes == s.nodes[r2.id := Abs(r2)];
    assert s2.net == s.net + (out1 + out2);
  }

  lemma MovedTwice(s: State, s1: State, s2: State, r1: Raft, out1: set<Message>, r2: Raft, out2: set<Message>)
    requires Moved(s, s1, r1, out1) && Moved(s1, s2, r2, out2) && r1.id == r2.id
    ensures Moved(s, s2, r2, out1 + out2)
  {
    hide At, Follows;
    FollowsTwice(s, s1, s2, r1, out1, r2, out2);
  }

  lemma MovedAt(s: State, s': State, r: Raft, out: set<Message>)
    requires Moved(s, s', r, out)
    ensures At(s', r)
  {
  }

  /** Silence first, then messages. */
  lemma MovedThen(s: State, s1: State, s2: State, r1: Raft, r2: Raft, out: set<Message>)
    requires Moved(s, s1, r1, {}) && Moved(s1, s2, r2, out) && r1.id == r2.id
    ensures Moved(s, s2, r2, out)
  {
    hide At, Follows;
    MovedTwice(s, s1, s2, r1, {}, r2, out);
    assert {} + out == out;
  }

  lemma Stays(s: State, r: Raft)
    requires At(s, r)
    ensures Moved(s, s, r, {})
  {
    assert s.nodes == s.nodes[r.id := Abs(r)];
    assert s.net == s.net + {};
  }

  /** A change the protocol does not see. */
  lemma Unseen(s: State, r: Raft, r': Raft)
    requires At(s, r) && Sound(s.h.peers, r') && r'.id == r.id && Abs(r') == Abs(r)
    ensures Moved(s, s, r', {})
  {
    Stays(s, r);
  }

  lemma Sends(s: State, r: Raft, out: set<Message>) returns (s': State)
    requires At(s, r) && forall m | m in out :: MessageOK(s.h, m)
    ensures Moved(s, s', r, out)
  {
    s' := Send(s, out);
    SendKeeps(s, out);
    Stays(s, r);
  }

  /** A protocol move of the node itself, followed by what it sends. */
  lemma Places(s: State, h': History, r: Raft, r': Raft, out: set<Message>) returns (s': State)
    requires At(s, r) && r'.id == r.id && Sound(s.h.peers, r') && Extends(s.h, h')
    requires Inv(Put(s, h', r.id, Abs(r')))
    requires forall m | m in out :: MessageOK(h', m)
    ensures Moved(s, s', r', out) && s'.h == h'
  {
    var s1 := Put(s, h', r.id, Abs(r'));
    SendKeeps(s1, out);
    s' := Send(s1, out);
  }

  // ---------------------------------------------------------------- changing role

  lemma ResetSound(peers: set<NodeId>, r: Raft, term: nat)
    requires Sound(peers, r)
    ensures Sound(peers, Reset(r, term)) && NextOK(Reset(r, term))
  {
  }

  lemma FollowerAbs(r: Raft, term: nat, lead: NodeId)
    requires term >= r.term
    ensures var r' := BecomeFollower(r, term, lead);
            Abs(r') == if term > r.term then Bumped(Abs(r), term, Acked(r'.prs)) else SteppedDown(Abs(r), Acked(r'.prs))
  {
  }

  lemma FollowerMoves(s: State, r: Raft, term: nat, lead: NodeId) returns (s': State)
    requires At(s, r) && term >= r.term
    ensures Moved(s, s', BecomeFollower(r, term, lead), {})
  {
    var r' := BecomeFollower(r, term, lead);
    ResetSound(s.h.peers, r, term);
    FollowerAbs(r, term, lead);
    if term > r.term {
      BumpKeeps(s, r.id, term, Acked(r'.prs));
    } else {
      StepDownKeeps(s, r.id, Acked(r'.prs));
    }
    s' := Places(s, s.h, r, r', {});
  }

  // ---------------------------------------------------------------- follower: append entries

  lemma LogIsLeaders(s: State, r: Raft, m: Message)
    requires At(s, r) && r.role.Follower? && AppOK(s.h, m) && m.term == r.term && m.to == r.id
    ensures s.h.leader[r.term] != r.id
    ensures LogOK(s.h.logs, s.h.logs[r.term], r.term) && LogOK(s.h.logs, r.view.ents, r.term)
    ensures r.committed <= Last(r) && Agree(r.view.ents, s.h.logs[r.term], r.committed)
  {
    assert NodeOK(s.h, r.id, s.nodes[r.id]);
    assert LogOK(s.h.logs, s.h.logs[r.term], r.term);
    LeaderHasCommitted(s.h, r.view.ents, r.committed, r.term, r.term);
  }

  lemma Accepts(s: State, r: Raft, m: Message, l': Log, i: nat, c: nat, reply: Message) returns (s': State)
    requires At(s, r) && MayAccept(s.h, r.id, Abs(r), l', i, c)
    requires reply.kind.MsgAppResp? && reply.from == r.id && reply.term == r.term && reply.index == i
    requires Wire(reply)
    ensures Moved(s, s', r.(view := Whole(l'), committed := c), {reply})
  {
    hide Inv;
    var h' := AcceptHistory(s.h, r.id, Abs(r), i);
    Here(s, r);
    AcceptHistoryOK(s.h, r.id, Abs(r), i);
    AcceptKeeps(s, r.id, l', i, c);
    s' := Places(s, h', r, r.(view := Whole(l'), committed := c), {reply});
  }

  lemma CommitCovers(h: History, l: Log, l': Log, committed: nat, c: nat, n: nat, t: nat)
    requires t in h.logs
    requires Committed(h, l, committed, t) && Agree(l, h.logs[t], committed)
    requires Committed(h, h.logs[t], c, t) && Agree(l', h.logs[t], n)
    requires TakesOver(h.logs[t], l, l')
    ensures Committed(h, l', Max(committed, Min(c, n)), t)
  {
    var d := Min(c, n);
    if d <= committed {
      if !Agree(l, l', committed) {
        var j :| 0 <= j < committed && j < |h.logs[t]| && h.logs[t][j] != l[j];
        AgreePoint(l, h.logs[t], committed, j);
      }
      CommittedKept(h, l, l', committed, committed, t);
    } else {
      AgreeLess(l', h.logs[t], n, d);
      CommittedKept(h, h.logs[t], l', c, d, t);
    }
  }

  lemma ShortcutMoves(s: State, r: Raft, m: Message) returns (s': State)
    requires At(s, r) && r.role.Follower? && AppOK(s.h, m) && m.term == r.term && m.to == r.id
    requires r.commit == r.committed && r.term >= 1
    ensures Moved(s, s', r, {Reply(r, m, MsgAppResp).(index := r.commit)})
  {
    LogIsLeaders(s, r, m);
    assert NodeOK(s.h, r.id, s.nodes[r.id]);
    assert TakesOver(s.h.logs[r.term], r.view.ents, r.view.ents);
    s' := Accepts(s, r, m, r.view.ents, r.commit, r.committed, Reply(r, m, MsgAppResp).(index := r.commit));
    assert r.(view := Whole(r.view.ents), committed := r.committed) == r;
  }

  /** What the scan of a leader's entries does to a follower's log. */
  lemma TakeIs(s: State, r: Raft, m: Message)
    requires At(s, r) && r.role.Follower? && AppOK(s.h, m) && m.term == r.term && m.to == r.id
    ensures r.term in s.h.logs && m.from != r.id
    ensures var o := MaybeAppend(r.view, r.committed, m.index, m.logTerm, m.commit, m.entries);
            && !o.LogPanic?
            && (o.Appended? ==>
                  && o.view == Whole(o.view.ents)
                  && TakenOver(s.h.logs, r.term, r.view.ents, o.view.ents, s.h.logs[r.term], m.index + |m.entries|)
                  && o.committed == Max(r.committed, Min(m.commit, m.index + |m.entries|)))
  {
    LogIsLeaders(s, r, m);
    hide Inv, MaybeAppend, TakenOver, LogOK;
    MaybeAppendTakesOver(s.h.logs, r.term, r.view.ents, s.h.logs[r.term], r.committed,
                         m.index, m.logTerm, m.commit, m.entries);
  }

  lemma MayTake(s: State, r: Raft, m: Message, o: LogOutcome)
    requires At(s, r) && r.role.Follower? && AppOK(s.h, m) && m.term == r.term && m.to == r.id
    requires o == MaybeAppend(r.view, r.committed, m.index, m.logTerm, m.commit, m.entries) && o.Appended?
    ensures MayAccept(s.h, r.id, Abs(r), o.view.ents, m.index + |m.entries|, o.committed)
    ensures o.view == Whole(o.view.ents)
  {
    hide MaybeAppend;
    TakeIs(s, r, m);
    LogIsLeaders(s, r, m);
    assert NodeOK(s.h, r.id, s.nodes[r.id]);
    hide Inv, HistoryOK;
    CommitCovers(s.h, r.view.ents, o.view.ents, r.committed, m.commit, m.index + |m.entries|, r.term);
  }

  lemma TakenMoves(s: State, r: Raft, m: Message, o: LogOutcome) returns (s': State)
    requires At(s, r) && r.role.Follower? && AppOK(s.h, m) && m.term == r.term && m.to == r.id
    requires o == MaybeAppend(r.view, r.committed, m.index, m.logTerm, m.commit, m.entries) && o.Appended?
    requires r.term >= 1
    ensures Moved(s, s', r.(view := o.view, committed := o.committed),
                  {Reply(r, m, MsgAppResp).(index := m.index + |m.entries|)})
  {
    hide At, AppOK, MaybeAppend, Moved, MayAccept, TakenOver;
    TakeIs(s, r, m);
    MayTake(s, r, m, o);
    var n := m.index + |m.entries|;
    s' := Accepts(s, r, m, o.view.ents, n, o.committed, Reply(r, m, MsgAppResp).(index := n));
  }

  lemma RejectOK(s: State, r: Raft, m: Message)
    requires At(s, r) && AppOK(s.h, m) && m.to == r.id && r.term >= 1
    ensures MessageOK(s.h, Reply(r, m, MsgAppResp).(index := m.index, reject := true, rejectHint := Last(r)))
  {
  }

  lemma AppendMoves(s: State, r: Raft, m: Message) returns (s': State)
    requires At(s, r) && r.role.Follower? && AppOK(s.h, m) && m.term == r.term && m.to == r.id
    requires r.commit == r.committed && r.term >= 1
    ensures var o := HandleAppendEntries(r, m); o.Done? && Moved(s, s', o.r, o.out)
  {
    hide At, AppOK, MaybeAppend, Moved, TakenOver, MessageOK;
    TakeIs(s, r, m);
    if m.index < r.commit {
      s' := ShortcutMoves(s, r, m);
    } else {
      var o := MaybeAppend(r.view, r.committed, m.index, m.logTerm, m.commit, m.entries);
      if o.Appended? {
        s' := TakenMoves(s, r, m, o);
      } else {
        RejectOK(s, r, m);
        s' := Sends(s, r, {Reply(r, m, MsgAppResp).(index := m.index, reject := true, rejectHint := Last(r))});
      }
    }
  }

  // ---------------------------------------------------------------- follower: heartbeat

  lemma RaiseCommit(s: State, r: Raft, c: nat, out: set<Message>) returns (s': State)
    requires At(s, r) && Committed(s.h, r.view.ents, c, r.term)
    requires forall m | m in out :: MessageOK(s.h, m)
    ensures Moved(s, s', r.(committed := c), out)
  {
    SetCommitKeeps(s, r.id, c);
    s' := Places(s, s.h, r, r.(committed := c), out);
  }

  lemma HeartbeatCovers(s: State, r: Raft, m: Message)
    requires At(s, r) && HeartbeatOK(s.h, m) && m.term == r.term && m.to == r.id
    ensures Committed(s.h, r.view.ents, m.commit, r.term)
  {
    assert NodeOK(s.h, r.id, s.nodes[r.id]);
    if m.commit > 0 {
      AckedCommits(s.h, r.id, s.nodes[r.id], m.commit);
    }
  }

  lemma HeartbeatMoves(s: State, r: Raft, m: Message) returns (s': State)
    requires At(s, r) && HeartbeatOK(s.h, m) && m.term == r.term && m.to == r.id && r.term >= 1
    ensures var o := HandleHeartbeat(r, m); o.Done? && Moved(s, s', o.r, o.out)
  {
    hide Inv, Moved;
    HeartbeatCovers(s, r, m);
    if r.committed < m.commit {
      s' := RaiseCommit(s, r, m.commit, {Reply(r, m, MsgHeartbeatResp)});
    } else {
      s' := Sends(s, r, {Reply(r, m, MsgHeartbeatResp)});
    }
  }

  // ---------------------------------------------------------------- follower: vote

  lemma UpToDateMatches(l: Log, cand: Log)
    ensures IsUpToDate(Whole(l), |cand|, LastTerm(cand)) == UpToDate(cand, l)
  {
    TermsMatch(l, |l|);
  }

  lemma VoteMayGrant(h: History, r: Raft, m: Message)
    requires Ballots(h) && r.view == Whole(r.view.ents)
    requires r.role.Follower? && m.kind.MsgVote? && MessageOK(h, m)
    requires m.term == r.term && m.to == r.id && CanVote(r, m)
    ensures MayGrant(h, r.id, Abs(r), m.from)
  {
    UpToDateMatches(r.view.ents, h.ballots[(m.from, m.term)].log);
    assert BallotOK(h, m.from, m.term);
  }

  lemma GrantExtends(h: History, n: NodeId, x: Node, c: NodeId)
    requires NodeOK(h, n, x) && MayGrant(h, n, x, c) && c != NONE
    ensures var h' := GrantHistory(h, n, x, c);
            Extends(h, h') && (n, x.term) in h'.ballots && h'.ballots[(n, x.term)].cand == c
  {
  }

  lemma VoteMoves(s: State, r: Raft, m: Message) returns (s': State)
    requires At(s, r) && r.role.Follower? && m.kind.MsgVote? && MessageOK(s.h, m)
    requires m.term == r.term && m.to == r.id && CanVote(r, m)
    ensures Moved(s, s', r.(vote := m.from), {Reply(r, m, MsgVoteResp)})
  {
    VoteMayGrant(s.h, r, m);
    assert NodeOK(s.h, r.id, s.nodes[r.id]);
    GrantExtends(s.h, r.id, Abs(r), m.from);
    GrantKeeps(s, r.id, m.from);
    s' := Places(s, GrantHistory(s.h, r.id, Abs(r), m.from), r, r.(vote := m.from), {Reply(r, m, MsgVoteResp)});
  }
}
