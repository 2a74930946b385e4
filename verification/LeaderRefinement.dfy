/** The handlers of candidates and leaders as protocol moves. */
module LeaderRefinement {
  import opened Types
  import opened LogView
  import opened ProgressSpec
  import opened NodeSpec
  import opened Quorums
  import opened ProtocolLogs
  import opened Protocol
  import opened ProtocolSteps
  import opened ProtocolElections
  import opened ProtocolReplication
  import opened LogRefinement
  import opened Refinement

  // ---------------------------------------------------------------- what a leader sends

  ghost predicate LeadsAt(s: State, r: Raft) {
    At(s, r) && r.role.Leader?
  }

  lemma LeaderFacts(s: State, r: Raft)
    requires LeadsAt(s, r)
    ensures r.term in s.h.leader && s.h.leader[r.term] == r.id
    ensures r.term in s.h.logs && s.h.logs[r.term] == r.view.ents
    ensures LogOK(s.h.logs, r.view.ents, r.term)
    ensures Committed(s.h, r.view.ents, r.committed, r.term) && r.term >= 1
    ensures r.view == Whole(r.view.ents) && r.committed <= Last(r) && r.id in r.prs
  {
    assert NodeOK(s.h, r.id, s.nodes[r.id]);
    LeaderOwnsLog(s.h, r.id, s.nodes[r.id]);
  }

  lemma OutstandingIs(r: Raft, next: Pos)
    requires r.view == Whole(r.view.ents) && next <= Last(r) + 1
    ensures Copied(r.view.ents, next - 1, Outstanding(r, next))
  {
  }

  /** What makes a message from a leader right: its log and term are those on record. */
  ghost predicate SpeaksFor(h: History, r: Raft) {
    && r.term in h.leader && h.leader[r.term] == r.id && r.id in h.peers
    && r.term in h.logs && h.logs[r.term] == r.view.ents
    && Committed(h, r.view.ents, r.committed, r.term) && r.term >= 1
  }

  lemma AppIsOK(h: History, r: Raft, to: NodeId, pr: Progress, ents: seq<Entry>)
    requires SpeaksFor(h, r) && to != r.id && Copied(r.view.ents, pr.next - 1, ents)
    requires TermOf(r.view, pr.next - 1) == TermAt(r.view.ents, pr.next - 1)
    ensures MessageOK(h, AppMessage(r, to, pr, ents))
  {
  }

  lemma LeaderLeads(s: State, r: Raft)
    requires LeadsAt(s, r)
    ensures SpeaksFor(s.h, r) && r.view == Whole(r.view.ents)
  {
    LeaderFacts(s, r);
    hide Inv;
  }

  lemma AppMessageOK(s: State, r: Raft, to: NodeId)
    requires LeadsAt(s, r) && to in r.prs && to != r.id && NextOK(r)
    ensures MessageOK(s.h, AppMessage(r, to, r.prs[to], Outstanding(r, r.prs[to].next)))
  {
    hide LeadsAt, MessageOK, Outstanding, SpeaksFor, Copied;
    LeaderLeads(s, r);
    OutstandingIs(r, r.prs[to].next);
    TermsMatch(r.view.ents, r.prs[to].next - 1);
    AppIsOK(s.h, r, to, r.prs[to], Outstanding(r, r.prs[to].next));
  }

  lemma LastSent(logs: Logs, r: Raft, next: Pos)
    requires LogOK(logs, r.view.ents, r.term) && r.view == Whole(r.view.ents) && next <= Last(r) + 1
    ensures var ents := Outstanding(r, next); ents != [] ==> next <= ents[|ents| - 1].index <= Last(r)
  {
    var ents := Outstanding(r, next);
    OutstandingIs(r, next);
    if ents != [] {
      var k := next - 1 + |ents| - 1;
      assert ents[|ents| - 1] == r.view.ents[k];
      assert EntryOK(logs, r.view.ents, r.term, k);
    }
  }

  /** Sending to a peer is always possible and leaves what the protocol sees alone. */
  lemma AppendToOK(s: State, r: Raft, to: NodeId)
    requires LeadsAt(s, r) && to in r.prs && to != r.id
    ensures var o := AppendTo(r, to);
            && o.Sent?
            && o.pr.matched == r.prs[to].matched && o.pr.next <= Last(r) + 1
            && o.pr.size == r.prs[to].size && !o.pr.state.Snapshotting?
            && forall m | m in o.msgs :: MessageOK(s.h, m)
  {
    hide Inv, MessageOK, Outstanding;
    AppMessageOK(s, r, to);
    LeaderFacts(s, r);
    LastSent(s.h.logs, r, r.prs[to].next);
  }

  lemma SendAppendMoves(s: State, r: Raft, to: NodeId) returns (s': State)
    requires LeadsAt(s, r) && to in r.prs && to != r.id
    ensures var o := SendAppend(r, to); o.Done? && Moved(s, s', o.r, o.out)
  {
    hide Inv, Moved, MessageOK;
    AppendToOK(s, r, to);
    var o := SendAppend(r, to);
    assert Acked(o.r.prs) == Acked(r.prs);
    Unseen(s, r, o.r);
    s' := Sends(s, o.r, o.out);
  }

  lemma BcastSees(s: State, r: Raft)
    requires LeadsAt(s, r)
    ensures var o := BcastAppend(r);
            && o.Done? && o.r.id == r.id && Abs(o.r) == Abs(r) && Sound(s.h.peers, o.r)
            && forall m | m in o.out :: MessageOK(s.h, m)
  {
    hide Inv, MessageOK, AppendTo;
    forall to | to in r.prs && to != r.id ensures AppendTo(r, to).Sent? {
      AppendToOK(s, r, to);
    }
    var o := BcastAppend(r);
    forall to | to in r.prs
      ensures var pr := o.r.prs[to];
              && pr.matched == r.prs[to].matched && pr.next <= Last(r) + 1
              && pr.size >= 1 && !pr.state.Snapshotting?
    {
      if to != r.id {
        AppendToOK(s, r, to);
      }
    }
    assert Acked(o.r.prs) == Acked(r.prs);
    forall m | m in o.out ensures MessageOK(s.h, m) {
      var to :| to in r.prs && to != r.id && m in AppendTo(r, to).msgs;
      AppendToOK(s, r, to);
    }
  }

  lemma BcastAppendMoves(s: State, r: Raft) returns (s': State)
    requires LeadsAt(s, r)
    ensures var o := BcastAppend(r); o.Done? && Moved(s, s', o.r, o.out)
  {
    hide Inv, Moved, MessageOK;
    BcastSees(s, r);
    var o := BcastAppend(r);
    Unseen(s, r, o.r);
    s' := Sends(s, o.r, o.out);
  }

  lemma HeartbeatIsOK(h: History, r: Raft, to: NodeId)
    requires SpeaksFor(h, r) && to in r.prs && to != r.id
    requires r.prs[to].matched > 0 ==> (to, r.term) in h.acks && r.prs[to].matched <= h.acks[(to, r.term)]
    ensures MessageOK(h, HeartbeatMessage(r, to))
  {
    var m := HeartbeatMessage(r, to);
    CommittedLess(h, r.view.ents, r.committed, m.commit, r.term);
  }

  lemma CommittedLess(h: History, l: Log, c: nat, c': nat, t: nat)
    requires Committed(h, l, c, t) && c' <= c
    ensures Committed(h, l, c', t)
  {
    if c' > 0 {
      AgreeLess(l, l, c, c');
      CommittedKept(h, l, l, c, c', t);
    }
  }

  lemma PeerRecorded(s: State, r: Raft, to: NodeId)
    requires LeadsAt(s, r) && to in r.prs && r.prs[to].matched > 0
    ensures (to, r.term) in s.h.acks && r.prs[to].matched <= s.h.acks[(to, r.term)]
  {
    assert NodeOK(s.h, r.id, s.nodes[r.id]);
    hide Inv, HistoryOK;
    assert Abs(r).acked[to] == r.prs[to].matched;
  }

  lemma HeartbeatMessageOK(s: State, r: Raft, to: NodeId)
    requires LeadsAt(s, r) && to in r.prs && to != r.id
    ensures MessageOK(s.h, HeartbeatMessage(r, to))
  {
    hide LeadsAt, MessageOK, SpeaksFor;
    LeaderLeads(s, r);
    if r.prs[to].matched > 0 {
      PeerRecorded(s, r, to);
    }
    HeartbeatIsOK(s.h, r, to);
  }

  lemma BcastHeartbeatMoves(s: State, r: Raft) returns (s': State)
    requires LeadsAt(s, r)
    ensures var o := BcastHeartbeat(r); o.Done? && Moved(s, s', o.r, o.out)
  {
    hide Inv, Moved, MessageOK;
    var o := BcastHeartbeat(r);
    assert Acked(o.r.prs) == Acked(r.prs);
    forall m | m in o.out ensures MessageOK(s.h, m) {
      var to :| to in r.prs && to != r.id && m == HeartbeatMessage(r, to);
      HeartbeatMessageOK(s, r, to);
    }
    Unseen(s, r, o.r);
    s' := Sends(s, o.r, o.out);
  }

  // ---------------------------------------------------------------- committing

  lemma QuorumIsMajority(prs: map<NodeId, Progress>, x: nat)
    requires IsQuorumIndex(prs, x)
    ensures Majority(Reached(prs, x), prs.Keys)
  {
    assert |prs.Keys| == |prs|;
    assert |Reached(prs, x)| >= |prs| / 2 + 1;
  }

  lemma MaybeCommitMoves(s: State, r: Raft) returns (s': State)
    requires LeadsAt(s, r)
    ensures var o := MaybeCommit(r); o.Done? && o.out == {} && Moved(s, s', o.r, {})
    ensures MaybeCommit(r).r.role.Leader?
  {
    LeaderFacts(s, r);
    var mci: nat := QuorumIndex(r.prs);
    if mci > r.committed && TermOf(r.view, mci) == r.term {
      QuorumIsMajority(r.prs, mci);
      assert NodeOK(s.h, r.id, s.nodes[r.id]);
      MajorityCommits(s.h, r.id, Abs(r), Reached(r.prs, mci), mci);
      s' := RaiseCommit(s, r, mci, {});
    } else {
      Stays(s, r);
      s' := s;
    }
  }

  // ---------------------------------------------------------------- appending proposals

  /** The leader's state between taking the entries into its log and looking for a new commit. */
  function Taken(r: Raft, ents: seq<Entry>): Raft
    requires r.id in r.prs
  {
    var r1 := r.(view := Whole(r.view.ents + Stamp(r.term, Last(r), ents)));
    r1.(prs := r1.prs[r.id := MaybeUpdate(r1.prs[r.id], Last(r1))])
  }

  lemma AppendEntryIs(r: Raft, ents: seq<Entry>)
    requires r.view == Whole(r.view.ents) && r.committed <= Last(r) && r.id in r.prs
    ensures AppendEntry(r, ents) == MaybeCommit(Taken(r, ents))
  {
    var es := Stamp(r.term, Last(r), ents);
    if es != [] {
      assert r.view.ents[..Last(r)] == r.view.ents;
    } else {
      assert r.view.ents + es == r.view.ents;
    }
  }

  lemma TakenSees(peers: set<NodeId>, r: Raft, ents: seq<Entry>)
    requires Sound(peers, r) && r.role.Leader?
    ensures Sound(peers, Taken(r, ents))
    ensures Abs(Taken(r, ents)) == Proposed(r.id, Abs(r), Stamp(r.term, Last(r), ents))
  {
    var r1 := Taken(r, ents);
    assert Acked(r1.prs) == Acked(r.prs)[r.id := Last(r1)];
  }

  lemma ProposeMoves(s: State, r: Raft, ents: seq<Entry>) returns (s': State)
    requires LeadsAt(s, r)
    ensures Moved(s, s', Taken(r, ents), {})
  {
    var es := Stamp(r.term, Last(r), ents);
    hide Inv, Moved;
    TakenSees(s.h.peers, r, ents);
    Here(s, r);
    ProposeHistoryOK(s.h, r.id, Abs(r), es);
    ProposeKeeps(s, r.id, es);
    s' := Places(s, ProposeHistory(s.h, r.id, Abs(r), es), r, Taken(r, ents), {});
  }

  lemma AppendEntryMoves(s: State, r: Raft, ents: seq<Entry>) returns (s': State)
    requires LeadsAt(s, r)
    ensures var o := AppendEntry(r, ents); o.Done? && o.out == {} && Moved(s, s', o.r, {}) && o.r.role.Leader?
  {
    hide At, Moved;
    LeaderFacts(s, r);
    AppendEntryIs(r, ents);
    var r1 := Taken(r, ents);
    var s1 := ProposeMoves(s, r, ents);
    MovedAt(s, s1, r1, {});
    s' := MaybeCommitMoves(s1, r1);
    MovedThen(s, s1, s', r1, AppendEntry(r, ents).r, {});
  }

  // ---------------------------------------------------------------- winning an election

  function Crowned(r: Raft): Raft
    requires r.id in r.prs
  {
    Taken(Enthroned(r), [Entry(0, 0, Nil)])
  }

  /** A leader before its first entry. */
  function Enthroned(r: Raft): Raft {
    Reset(r, r.term).(lead := r.id, role := Leader)
  }

  lemma EnthronedSees(peers: set<NodeId>, r: Raft)
    requires Sound(peers, r)
    ensures Sound(peers, Enthroned(r))
    ensures Abs(Enthroned(r)) == Abs(r).(role := Leader, granted := {}, acked := Acked(Enthroned(r).prs))
    ensures Acked(Enthroned(r).prs) == map v | v in peers :: if v == r.id then Last(r) else 0
  {
    ResetSound(peers, r, r.term);
    assert Granted(Enthroned(r)) == {};
  }

  lemma ProposedIsWon(n: NodeId, x: Node, peers: set<NodeId>, acked: map<NodeId, nat>)
    requires n in peers && acked == map v | v in peers :: if v == n then |x.log| else 0
    ensures Proposed(n, x.(role := Leader, granted := {}, acked := acked), [FirstEntry(x)]) == Won(n, x, peers)
  {
    var l := x.log + [FirstEntry(x)];
    assert acked[n := |l|] == map v | v in peers :: if v == n then |l| else 0;
  }

  lemma CrownedSees(peers: set<NodeId>, r: Raft)
    requires Sound(peers, r)
    ensures Sound(peers, Crowned(r)) && Abs(Crowned(r)) == Won(r.id, Abs(r), peers)
  {
    var es := [Entry(0, 0, Nil)];
    EnthronedSees(peers, r);
    assert Stamp(r.term, Last(r), es) == [FirstEntry(Abs(r))];
    assert Last(r) == |r.view.ents| && r.id in peers && r.id in r.prs;
    hide Sound, Acked, Reset, Stamp, Won, Proposed;
    TakenSees(peers, Enthroned(r), es);
    ProposedIsWon(r.id, Abs(r), peers, Acked(Enthroned(r).prs));
  }

  lemma GrantedMajority(peers: set<NodeId>, r: Raft)
    requires Sound(peers, r) && |Granted(r)| == Quorum(r)
    ensures Majority(Granted(r), peers)
  {
    assert |r.prs| == |r.prs.Keys|;
  }

  lemma CrownMoves(s: State, r: Raft) returns (s': State)
    requires At(s, r) && r.role.Candidate? && |Granted(r)| == Quorum(r)
    ensures Moved(s, s', Crowned(r), {})
  {
    hide Inv, Moved;
    GrantedMajority(s.h.peers, r);
    CrownedSees(s.h.peers, r);
    Here(s, r);
    WinHistoryOK(s.h, r.id, Abs(r));
    WinKeeps(s, r.id);
    s' := Places(s, WinHistory(s.h, r.id, Abs(r)), r, Crowned(r), {});
  }

  lemma BecomeLeaderIs(s: State, r: Raft)
    requires At(s, r) && r.role.Candidate?
    ensures r.id in r.prs && BecomeLeader(r) == MaybeCommit(Crowned(r))
  {
    assert NodeOK(s.h, r.id, s.nodes[r.id]);
    AppendEntryIs(Reset(r, r.term).(lead := r.id, role := Leader), [Entry(0, 0, Nil)]);
  }

  lemma BecomeLeaderMoves(s: State, r: Raft) returns (s': State)
    requires At(s, r) && r.role.Candidate? && |Granted(r)| == Quorum(r)
    ensures var o := BecomeLeader(r); o.Done? && o.out == {} && Moved(s, s', o.r, {}) && o.r.role.Leader? && o.r.id == r.id
  {
    hide At, Moved;
    BecomeLeaderIs(s, r);
    var s1 := CrownMoves(s, r);
    MovedAt(s, s1, Crowned(r), {});
    s' := MaybeCommitMoves(s1, Crowned(r));
    MovedThen(s, s1, s', Crowned(r), BecomeLeader(r).r, {});
  }

  lemma LeadThenBcast(s: State, s1: State, o: Outcome) returns (s': State)
    requires o.Done? && o.out == {} && Moved(s, s1, o.r, {}) && o.r.role.Leader?
    ensures var o' := Then(o, BcastAppend); o'.Done? && Moved(s, s', o'.r, o'.out) && o'.r.id == o.r.id
  {
    hide At, Moved;
    MovedAt(s, s1, o.r, {});
    s' := BcastAppendMoves(s1, o.r);
    var b := BcastAppend(o.r);
    assert {} + b.out == b.out;
    MovedThen(s, s1, s', o.r, b.r, b.out);
  }

  // ---------------------------------------------------------------- candidate: standing and counting

  function Stood(r: Raft): Raft
    requires !r.role.Leader?
  {
    Polled(BecomeCandidate(r).r, r.id, true)
  }

  lemma StoodSees(peers: set<NodeId>, r: Raft)
    requires Sound(peers, r) && !r.role.Leader?
    ensures Sound(peers, Stood(r)) && Abs(Stood(r)) == Standing(r.id, Abs(r), Acked(Stood(r).prs))
    ensures Granted(Stood(r)) == {r.id} && Stood(r).role.Candidate?
  {
    ResetSound(peers, r, r.term + 1);
    assert Granted(Stood(r)) == {r.id};
  }

  lemma StandMoves(s: State, r: Raft) returns (s': State)
    requires At(s, r) && !r.role.Leader?
    ensures Moved(s, s', Stood(r), {})
    ensures s'.h == StandHistory(s.h, r.id, Abs(r)) && Stood(r).view == Whole(r.view.ents)
  {
    hide Inv, Moved;
    StoodSees(s.h.peers, r);
    Here(s, r);
    StandHistoryOK(s.h, r.id, Abs(r));
    StandKeeps(s, r.id, Acked(Stood(r).prs));
    s' := Places(s, StandHistory(s.h, r.id, Abs(r)), r, Stood(r), {});
  }

  lemma VotesRequested(s: State, r: Raft) returns (s': State)
    requires At(s, r) && r.view == Whole(r.view.ents)
    requires (r.id, r.term) in s.h.ballots && s.h.ballots[(r.id, r.term)] == Ballot(r.id, r.view.ents)
    requires r.term >= 1
    ensures Moved(s, s', r, set to | to in r.prs && to != r.id :: VoteMessage(r, to))
  {
    TermsMatch(r.view.ents, Last(r));
    var out := set to | to in r.prs && to != r.id :: VoteMessage(r, to);
    forall m | m in out ensures MessageOK(s.h, m) {
    }
    s' := Sends(s, r, out);
  }

  lemma CampaignMoves(s: State, r: Raft) returns (s': State)
    requires At(s, r) && !r.role.Leader?
    ensures var o := Campaign(r); o.Done? && Moved(s, s', o.r, o.out)
  {
    hide At, Moved, BecomeLeader;
    var r1 := Stood(r);
    var s1 := StandMoves(s, r);
    MovedAt(s, s1, r1, {});
    if |Granted(r1)| == Quorum(r1) {
      s' := BecomeLeaderMoves(s1, r1);
      MovedThen(s, s1, s', r1, BecomeLeader(r1).r, {});
    } else {
      s' := VotesRequested(s1, r1);
      MovedThen(s, s1, s', r1, r1, set to | to in r1.prs && to != r1.id :: VoteMessage(r1, to));
    }
  }

  lemma PollMoves(s: State, r: Raft, m: Message) returns (s': State)
    requires At(s, r) && r.role.Candidate? && m.kind.MsgVoteResp? && MessageOK(s.h, m)
    requires m.term == r.term && m.to == r.id
    ensures Moved(s, s', Polled(r, m.from, !m.reject), {})
  {
    var r1 := Polled(r, m.from, !m.reject);
    if m.from in r.votes || m.reject {
      assert Granted(r1) == Granted(r);
      Unseen(s, r, r1);
      s' := s;
    } else {
      assert Granted(r1) == Granted(r) + {m.from};
      CountVoteKeeps(s, r.id, m.from);
      s' := Places(s, s.h, r, r1, {});
    }
  }

  lemma VoteRespMoves(s: State, r: Raft, m: Message) returns (s': State)
    requires At(s, r) && r.role.Candidate? && m.kind.MsgVoteResp? && MessageOK(s.h, m)
    requires m.term == r.term && m.to == r.id
    ensures var o := CandidateVoteResp(r, m); o.Done? && Moved(s, s', o.r, o.out)
  {
    hide At, Moved, BecomeLeader, BcastAppend, MessageOK;
    var r1 := Polled(r, m.from, !m.reject);
    var s1 := PollMoves(s, r, m);
    MovedAt(s, s1, r1, {});
    var o := CandidateVoteResp(r, m);
    if |Granted(r1)| == Quorum(r1) {
      var s2 := BecomeLeaderMoves(s1, r1);
      s' := LeadThenBcast(s1, s2, BecomeLeader(r1));
      MovedThen(s, s1, s', r1, o.r, o.out);
    } else if |r1.votes| - |Granted(r1)| == Quorum(r1) {
      s' := FollowerMoves(s1, r1, r1.term, NONE);
      MovedThen(s, s1, s', r1, o.r, {});
    } else {
      s' := s1;
    }
  }

  // ---------------------------------------------------------------- leader: answers of peers

  /** A change to one peer's record that the protocol does not see. */
  lemma RecordUnseen(s: State, r: Raft, v: NodeId, pr: Progress)
    requires LeadsAt(s, r) && v in r.prs
    requires pr.matched == r.prs[v].matched && pr.next <= Last(r) + 1 && pr.size == r.prs[v].size && !pr.state.Snapshotting?
    ensures Moved(s, s, SetProgress(r, v, pr), {})
  {
    hide Inv, Moved;
    assert Acked(SetProgress(r, v, pr).prs) == Acked(r.prs);
    Unseen(s, r, SetProgress(r, v, pr));
  }

  lemma RejectedMoves(s: State, r: Raft, m: Message) returns (s': State)
    requires LeadsAt(s, r) && m.from in r.prs && m.from != r.id
    ensures var o := LeaderRejected(r, m); o.Done? && Moved(s, s', o.r, o.out)
  {
    hide Inv, Moved, SendAppend;
    var pr := r.prs[m.from];
    if !DecrApplies(pr, m.index) {
      Stays(s, r);
      s' := s;
    } else {
      var pr1 := MaybeDecrTo(pr, m.index, m.rejectHint);
      var pr2 := if pr1.state.Replicate? then BecomeProbe(pr1) else pr1;
      var r1 := SetProgress(r, m.from, pr2);
      RecordUnseen(s, r, m.from, pr2);
      MovedAt(s, s, r1, {});
      s' := SendAppendMoves(s, r1, m.from);
      SendAppendKeepsId(r1, m.from);
      MovedThen(s, s, s', r1, SendAppend(r1, m.from).r, SendAppend(r1, m.from).out);
    }
  }

  lemma SendAppendKeepsId(r: Raft, to: NodeId)
    ensures SendAppend(r, to).Done? ==> SendAppend(r, to).r.id == r.id
  {
  }

  lemma HeartbeatRespMoves(s: State, r: Raft, m: Message) returns (s': State)
    requires LeadsAt(s, r) && m.from in r.prs && m.from != r.id
    ensures var o := LeaderHeartbeatResp(r, m); o.Done? && Moved(s, s', o.r, o.out)
  {
    hide Inv, Moved, SendAppend;
    var pr := r.prs[m.from];
    var pr1 := if pr.state.Replicate? && Full(pr) then pr.(ins := FreeTo(pr.ins, pr.ins[0])) else pr;
    var r1 := SetProgress(r, m.from, pr1);
    RecordUnseen(s, r, m.from, pr1);
    MovedAt(s, s, r1, {});
    if pr1.matched < Last(r) {
      s' := SendAppendMoves(s, r1, m.from);
      SendAppendKeepsId(r1, m.from);
      MovedThen(s, s, s', r1, SendAppend(r1, m.from).r, SendAppend(r1, m.from).out);
    } else {
      s' := s;
    }
  }

  /** The record of a peer after an acknowledgement within the log. */
  lemma AcknowledgedIs(r: Raft, pr: Progress, n: nat)
    requires pr.matched <= Last(r) && pr.next <= Last(r) + 1 && !pr.state.Snapshotting?
    requires pr.matched < n <= Last(r)
    ensures var a := Acknowledged(pr, n);
            a.matched == n && a.next <= Last(r) + 1 && a.size == pr.size && !a.state.Snapshotting?
  {
  }

  lemma AckWithinLog(s: State, r: Raft, m: Message)
    requires LeadsAt(s, r) && m.kind.MsgAppResp? && !m.reject && MessageOK(s.h, m) && m.term == r.term
    ensures m.index <= Last(r) && m.from in s.h.peers && (m.from, r.term) in s.h.acks && m.index <= s.h.acks[(m.from, r.term)]
  {
    LeaderFacts(s, r);
  }

  lemma RecordMoves(s: State, r: Raft, m: Message) returns (s': State)
    requires LeadsAt(s, r) && m.kind.MsgAppResp? && !m.reject && MessageOK(s.h, m) && m.term == r.term
    requires m.from in r.prs && r.prs[m.from].matched < m.index
    ensures Moved(s, s', SetProgress(r, m.from, Acknowledged(r.prs[m.from], m.index)), {})
  {
    hide Inv, Moved, Acknowledged, MessageOK;
    AckWithinLog(s, r, m);
    var a := Acknowledged(r.prs[m.from], m.index);
    AcknowledgedIs(r, r.prs[m.from], m.index);
    var r1 := SetProgress(r, m.from, a);
    assert Acked(r1.prs) == Acked(r.prs)[m.from := m.index];
    RecordAckKeeps(s, r.id, m.from, m.index);
    s' := Places(s, s.h, r, r1, {});
  }

  lemma AcceptedMoves(s: State, r: Raft, m: Message) returns (s': State)
    requires LeadsAt(s, r) && m.kind.MsgAppResp? && !m.reject && MessageOK(s.h, m) && m.term == r.term
    requires m.from in r.prs && m.from != r.id
    ensures var o := LeaderAccepted(r, m); o.Done? && Moved(s, s', o.r, o.out)
  {
    hide At, Moved, Acknowledged, MessageOK, BcastAppend, SendAppend, MaybeCommit;
    var pr := r.prs[m.from];
    if m.index <= pr.matched {
      s' := StaleAckMoves(s, r, m);
    } else {
      var r1 := SetProgress(r, m.from, Acknowledged(pr, m.index));
      var s1 := RecordMoves(s, r, m);
      MovedAt(s, s1, r1, {});
      var s2 := MaybeCommitMoves(s1, r1);
      var r2 := MaybeCommit(r1).r;
      MaybeCommitKeeps(r1);
      MovedThen(s, s1, s2, r1, r2, {});
      MovedAt(s1, s2, r2, {});
      s' := SendAfterAck(s, s2, r2, m.from, r2.committed != r.committed, IsPaused(pr));
    }
  }

  lemma StaleAckMoves(s: State, r: Raft, m: Message) returns (s': State)
    requires LeadsAt(s, r) && m.from in r.prs && m.index <= r.prs[m.from].matched
    ensures Moved(s, s', SetProgress(r, m.from, MaybeUpdate(r.prs[m.from], m.index)), {})
  {
    hide Inv, Moved;
    RecordUnseen(s, r, m.from, MaybeUpdate(r.prs[m.from], m.index));
    s' := s;
  }

  lemma MaybeCommitKeeps(r: Raft)
    requires MaybeCommit(r).Done?
    ensures MaybeCommit(r).r.id == r.id && MaybeCommit(r).r.prs == r.prs
  {
  }

  lemma BcastKeepsId(r: Raft)
    ensures BcastAppend(r).Done? ==> BcastAppend(r).r.id == r.id
  {
  }

  lemma SendAfterAck(s: State, s1: State, r: Raft, to: NodeId, all: bool, one: bool) returns (s': State)
    requires Moved(s, s1, r, {}) && r.role.Leader? && to in r.prs && to != r.id
    ensures var o := if all then BcastAppend(r) else if one then SendAppend(r, to) else Done(r, {});
            o.Done? && Moved(s, s', o.r, o.out)
  {
    hide At, Moved, BcastAppend, SendAppend;
    MovedAt(s, s1, r, {});
    if all {
      s' := BcastAppendMoves(s1, r);
      BcastKeepsId(r);
      MovedThen(s, s1, s', r, BcastAppend(r).r, BcastAppend(r).out);
    } else if one {
      s' := SendAppendMoves(s1, r, to);
      SendAppendKeepsId(r, to);
      MovedThen(s, s1, s', r, SendAppend(r, to).r, SendAppend(r, to).out);
    } else {
      s' := s1;
    }
  }

  lemma UnreachableMoves(s: State, r: Raft, m: Message) returns (s': State)
    requires LeadsAt(s, r) && m.from in r.prs
    ensures var o := LeaderUnreachable(r, m); o.Done? && Moved(s, s', o.r, o.out)
  {
    hide Inv, Moved;
    var pr := r.prs[m.from];
    RecordUnseen(s, r, m.from, if pr.state.Replicate? then BecomeProbe(pr) else pr);
    s' := s;
  }
}
