/** One call of Step, and one restart, as protocol moves. */
module StepRefinement {
  import opened Types
  import opened LogView
  import opened ProgressSpec
  import opened NodeSpec
  import opened ProtocolLogs
  import opened Protocol
  import opened Refinement
  import opened LeaderRefinement

  /** A message from the network, addressed to this node and of its current term. */
  ghost predicate Arrived(s: State, r: Raft, m: Message) {
    MessageOK(s.h, m) && !m.kind.MsgProp? && m.to == r.id && m.term == r.term
  }

  /** Answers that commit the sender to nothing. */
  lemma HarmlessReply(s: State, r: Raft, m: Message) returns (s': State)
    requires At(s, r) && m.from == r.id && Wire(m)
    requires m.kind.MsgProp? || (m.kind.MsgVoteResp? && m.reject)
    ensures Moved(s, s', r, {m})
  {
    hide Moved;
    s' := Sends(s, r, {m});
  }

  lemma LeaderArrived(s: State, r: Raft, m: Message) returns (s': State)
    requires LeadsAt(s, r) && Arrived(s, r, m)
    ensures var o := StepLeader(r, m); o.Done? && Moved(s, s', o.r, o.out)
  {
    hide Inv, Moved, LeaderRejected, LeaderAccepted, LeaderHeartbeatResp;
    if m.kind.MsgAppResp? && m.reject {
      s' := RejectedMoves(s, r, m);
    } else if m.kind.MsgAppResp? {
      s' := AcceptedMoves(s, r, m);
    } else if m.kind.MsgHeartbeatResp? {
      s' := HeartbeatRespMoves(s, r, m);
    } else if m.kind.MsgVote? {
      s' := HarmlessReply(s, r, Reply(r, m, MsgVoteResp).(reject := true));
    } else {
      Stays(s, r);
      s' := s;
    }
  }

  lemma FollowerArrived(s: State, r: Raft, m: Message) returns (s': State)
    requires At(s, r) && r.role.Follower? && Arrived(s, r, m) && r.commit == r.committed
    ensures var o := StepFollower(r, m); o.Done? && Moved(s, s', o.r, o.out)
  {
    hide Inv, Moved, HandleAppendEntries, HandleHeartbeat, CanVote;
    if m.kind.MsgApp? {
      s' := LedAppend(s, r, m);
    } else if m.kind.MsgHeartbeat? {
      s' := LedHeartbeat(s, r, m);
    } else if m.kind.MsgVote? && CanVote(r, m) {
      s' := VoteMoves(s, r, m);
    } else if m.kind.MsgVote? {
      s' := HarmlessReply(s, r, Reply(r, m, MsgVoteResp).(reject := true));
    } else {
      Stays(s, r);
      s' := s;
    }
  }

  lemma LedAppend(s: State, r: Raft, m: Message) returns (s': State)
    requires At(s, r) && r.role.Follower? && Arrived(s, r, m) && m.kind.MsgApp? && r.commit == r.committed
    ensures var o := HandleAppendEntries(r.(lead := m.from), m); o.Done? && Moved(s, s', o.r, o.out)
  {
    hide Inv, Moved, HandleAppendEntries;
    Unseen(s, r, r.(lead := m.from));
    s' := AppendMoves(s, r.(lead := m.from), m);
  }

  lemma LedHeartbeat(s: State, r: Raft, m: Message) returns (s': State)
    requires At(s, r) && r.role.Follower? && Arrived(s, r, m) && m.kind.MsgHeartbeat?
    ensures var o := HandleHeartbeat(r.(lead := m.from), m); o.Done? && Moved(s, s', o.r, o.out)
  {
    hide Inv, Moved, HandleHeartbeat;
    Unseen(s, r, r.(lead := m.from));
    s' := HeartbeatMoves(s, r.(lead := m.from), m);
  }

  /** A candidate that hears from the leader of its term first becomes its follower. */
  lemma CandidateYields(s: State, r: Raft, m: Message) returns (s': State)
    requires At(s, r) && r.role.Candidate? && Arrived(s, r, m) && r.commit == r.committed
    requires m.kind.MsgApp? || m.kind.MsgHeartbeat?
    ensures var o := StepCandidate(r, m); o.Done? && Moved(s, s', o.r, o.out)
  {
    hide Inv, At, Moved, MessageOK, HandleAppendEntries, HandleHeartbeat;
    var r1 := BecomeFollower(r, r.term, m.from);
    var s1 := FollowerMoves(s, r, r.term, m.from);
    MovedAt(s, s1, r1, {});
    StillArrived(s, s1, r1, m);
    assert r1.(lead := m.from) == r1;
    if m.kind.MsgApp? {
      s' := LedAppend(s1, r1, m);
      var o := HandleAppendEntries(r1, m);
      HandlersKeepId(r1, m);
      MovedThen(s, s1, s', r1, o.r, o.out);
    } else {
      s' := LedHeartbeat(s1, r1, m);
      var o := HandleHeartbeat(r1, m);
      HandlersKeepId(r1, m);
      MovedThen(s, s1, s', r1, o.r, o.out);
    }
  }

  lemma HandlersKeepId(r: Raft, m: Message)
    ensures HandleAppendEntries(r, m).Done? ==> HandleAppendEntries(r, m).r.id == r.id
    ensures HandleHeartbeat(r, m).Done? ==> HandleHeartbeat(r, m).r.id == r.id
  {
  }

  lemma StillArrived(s: State, s1: State, r: Raft, m: Message)
    requires Moved(s, s1, r, {}) && MessageOK(s.h, m) && !m.kind.MsgProp? && m.to == r.id && m.term == r.term
    ensures Arrived(s1, r, m)
  {
    hide At, MessageOK;
    MessageStable(s.h, s1.h, m);
  }

  lemma CandidateArrived(s: State, r: Raft, m: Message) returns (s': State)
    requires At(s, r) && r.role.Candidate? && Arrived(s, r, m) && r.commit == r.committed
    ensures var o := StepCandidate(r, m); o.Done? && Moved(s, s', o.r, o.out)
  {
    hide Inv, Moved, HandleAppendEntries, HandleHeartbeat, CandidateVoteResp;
    if m.kind.MsgApp? || m.kind.MsgHeartbeat? {
      s' := CandidateYields(s, r, m);
    } else if m.kind.MsgVoteResp? {
      s' := VoteRespMoves(s, r, m);
    } else if m.kind.MsgVote? {
      s' := HarmlessReply(s, r, Reply(r, m, MsgVoteResp).(reject := true));
    } else {
      Stays(s, r);
      s' := s;
    }
  }

  lemma DispatchArrived(s: State, r: Raft, m: Message) returns (s': State)
    requires At(s, r) && Arrived(s, r, m) && r.commit == r.committed
    ensures var o := Dispatch(r, m); o.Done? && Moved(s, s', o.r, o.out)
  {
    hide At, Moved, Arrived, StepLeader, StepCandidate, StepFollower;
    match r.role {
      case Leader => s' := LeaderArrived(s, r, m);
      case Candidate => s' := CandidateArrived(s, r, m);
      case Follower => s' := FollowerArrived(s, r, m);
    }
  }

  // ---------------------------------------------------------------- Step as a whole

  /** Between steps the persisted commit index is the log's. */
  ghost predicate Rests(s: State, r: Raft) {
    At(s, r) && r.commit == r.committed
  }

  lemma SettledMoved(s: State, s': State, o: Outcome)
    requires o.Done? && Moved(s, s', o.r, o.out)
    ensures var p := Settled(o); p.Done? && Moved(s, s', p.r, p.out) && p.r.commit == p.r.committed && p.r.id == o.r.id
  {
    hide Inv;
  }

  lemma CatchUpMoves(s: State, r: Raft, m: Message) returns (s': State)
    requires Rests(s, r) && MessageOK(s.h, m) && !m.kind.MsgProp? && m.to == r.id && m.term >= r.term
    ensures var r1 := CatchUp(r, m);
            Moved(s, s', r1, {}) && r1.commit == r1.committed && r1.term == m.term && Arrived(s', r1, m) && r1.id == r.id
  {
    hide Inv, Moved, MessageOK;
    var r1 := CatchUp(r, m);
    if m.term > r.term {
      s' := FollowerMoves(s, r, m.term, if m.kind.MsgVote? then NONE else m.from);
    } else {
      Stays(s, r);
      s' := s;
    }
    StillArrived(s, s', r1, m);
  }

  /** Any message of the network can be stepped without panic, and stays within the protocol. */
  lemma NetStepMoves(s: State, r: Raft, m: Message) returns (s': State)
    requires Rests(s, r) && MessageOK(s.h, m) && !m.kind.MsgProp? && m.to == r.id
    ensures var o := Step(r, m); o.Done? && Moved(s, s', o.r, o.out) && o.r.commit == o.r.committed
  {
    hide Inv, At, Moved, Dispatch, CatchUp, Settled, Arrived;
    if m.term < r.term {
      Stays(s, r);
      s' := s;
    } else {
      var r1 := CatchUp(r, m);
      var s1 := CatchUpMoves(s, r, m);
      MovedAt(s, s1, r1, {});
      s' := DispatchArrived(s1, r1, m);
      var d := Dispatch(r1, m);
      DispatchKeepsId(r1, m);
      MovedThen(s, s1, s', r1, d.r, d.out);
      SettledMoved(s, s', d);
    }
  }

  /** What a node's own clock, application and transport feed into Step. */
  predicate FromWithin(m: Message) {
    m.term == 0 && (m.kind.MsgHup? || m.kind.MsgBeat? || m.kind.MsgProp? || m.kind.MsgUnreachable? || m.kind.MsgSnapStatus?)
  }

  /** The messages at which a leader panics: the order to campaign, a proposal without entries,
      which other nodes pass on to it, and news of a node that is not a member. */
  predicate Trips(r: Raft, m: Message) {
    && r.role.Leader?
    && (m.kind.MsgHup? || (m.kind.MsgProp? && m.entries == [])
        || ((m.kind.MsgUnreachable? || m.kind.MsgSnapStatus?) && m.from !in r.prs))
  }

  lemma TripsPanic(r: Raft, m: Message)
    requires Trips(r, m) && m.term == 0
    ensures Step(r, m).Panic?
  {
    hide BcastHeartbeat, LeaderUnreachable, AppendEntry, BcastAppend;
  }

  lemma ProposalMoves(s: State, r: Raft, m: Message) returns (s': State)
    requires Rests(s, r) && m.kind.MsgProp? && m.term == 0 && !Trips(r, m)
    ensures var o := Step(r, m); o.Done? && Moved(s, s', o.r, o.out) && o.r.commit == o.r.committed
  {
    hide Inv, Moved, Settled, AppendEntry, BcastAppend;
    if r.role.Leader? {
      var s1 := AppendEntryMoves(s, r, m.entries);
      s' := LeadThenBcast(s, s1, AppendEntry(r, m.entries));
    } else if r.role.Follower? && r.lead != NONE {
      s' := HarmlessReply(s, r, m.(to := r.lead, from := r.id));
    } else {
      Stays(s, r);
      s' := s;
    }
    SettledMoved(s, s', Dispatch(r, m));
  }

  lemma LeaderLocal(s: State, r: Raft, m: Message) returns (s': State)
    requires LeadsAt(s, r) && FromWithin(m) && !Trips(r, m) && !m.kind.MsgProp?
    ensures var o := StepLeader(r, m); o.Done? && Moved(s, s', o.r, o.out)
  {
    hide Inv, Moved, BcastHeartbeat, LeaderUnreachable;
    if m.kind.MsgBeat? {
      s' := BcastHeartbeatMoves(s, r);
    } else if m.kind.MsgUnreachable? {
      s' := UnreachableMoves(s, r, m);
    } else {
      Stays(s, r);
      s' := s;
    }
  }

  lemma LocalStepMoves(s: State, r: Raft, m: Message) returns (s': State)
    requires Rests(s, r) && FromWithin(m) && !Trips(r, m)
    ensures var o := Step(r, m); o.Done? && Moved(s, s', o.r, o.out) && o.r.commit == o.r.committed
  {
    hide Inv, Moved, Campaign, Settled, StepLeader;
    if m.kind.MsgHup? {
      s' := CampaignMoves(s, r);
      SettledMoved(s, s', Campaign(r));
    } else if m.kind.MsgProp? {
      s' := ProposalMoves(s, r, m);
    } else {
      if r.role.Leader? {
        s' := LeaderLocal(s, r, m);
      } else {
        Stays(s, r);
        s' := s;
      }
      SettledMoved(s, s', Dispatch(r, m));
    }
  }

  /** A restart with everything persisted: the log, term, vote and commit index are kept. */
  function Restarted(r: Raft, applied: nat): Raft {
    BecomeFollower(r, r.term, NONE).(applied := applied, pending := false)
  }

  lemma RestartMoves(s: State, r: Raft, applied: nat) returns (s': State)
    requires Rests(s, r)
    ensures Moved(s, s', Restarted(r, applied), {}) && Restarted(r, applied).commit == Restarted(r, applied).committed
  {
    hide Inv;
    s' := FollowerMoves(s, r, r.term, NONE);
  }

  // ---------------------------------------------------------------- Step never changes who a node is

  lemma LeaderKeepsId(r: Raft, m: Message)
    requires r.role.Leader?
    ensures StepLeader(r, m).Done? ==> StepLeader(r, m).r.id == r.id
  {
    BcastKeepsId(r);
  }

  lemma BecomeLeaderKeepsId(r: Raft)
    ensures BecomeLeader(r).Done? ==> BecomeLeader(r).r.id == r.id
  {
  }

  lemma VoteRespKeepsId(r: Raft, m: Message)
    ensures CandidateVoteResp(r, m).Done? ==> CandidateVoteResp(r, m).r.id == r.id
  {
    hide BecomeLeader, BcastAppend;
    var r1 := Polled(r, m.from, !m.reject);
    BecomeLeaderKeepsId(r1);
    if BecomeLeader(r1).Done? {
      BcastKeepsId(BecomeLeader(r1).r);
    }
  }

  lemma CandidateKeepsId(r: Raft, m: Message)
    ensures StepCandidate(r, m).Done? ==> StepCandidate(r, m).r.id == r.id
  {
    hide CandidateVoteResp;
    VoteRespKeepsId(r, m);
    HandlersKeepId(BecomeFollower(r, r.term, m.from), m);
  }

  lemma DispatchKeepsId(r: Raft, m: Message)
    ensures Dispatch(r, m).Done? ==> Dispatch(r, m).r.id == r.id
  {
    hide StepLeader, StepCandidate;
    if r.role.Leader? {
      LeaderKeepsId(r, m);
    } else {
      CandidateKeepsId(r, m);
      HandlersKeepId(r.(lead := m.from), m);
    }
  }

  lemma CampaignKeepsId(r: Raft)
    ensures Campaign(r).Done? ==> Campaign(r).r.id == r.id
  {
  }

  lemma StepKeepsId(r: Raft, m: Message)
    ensures Step(r, m).Done? ==> Step(r, m).r.id == r.id
  {
    hide Dispatch, Campaign;
    CampaignKeepsId(r);
    DispatchKeepsId(CatchUp(r, m), m);
  }
}
