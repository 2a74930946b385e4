/** What a leader has committed and how far an election has come, in every state of every run:
    both are decided by majorities, and at once. */
module CommitRule {
  import opened Types
  import opened LogView
  import opened ProgressSpec
  import opened NodeSpec
  import opened Quorums
  import opened ProtocolLogs
  import opened Protocol
  import opened LogRefinement
  import opened Refinement
  import opened LeaderRefinement
  import opened StepRefinement
  import opened StepFacts
  import opened Handlers
  import opened Cluster
  import opened ClusterSafety

  /** What holds of every node of a run, as far as it is needed here. */
  ghost predicate Firm(r: Raft) {
    && r.id in r.prs && r.view.off == 0 && r.view.offTerm == 0 && Ordered(r)
    && r.committed <= Last(r) && r.commit == r.committed
    && (forall v | v in r.prs :: !r.prs[v].state.Snapshotting?)
    && (r.role.Leader? ==> Leading(r))
  }

  /** The entry at y is of the node's own term. */
  predicate Own(r: Raft, y: nat) {
    1 <= y <= Last(r) && TermOf(r.view, y) == r.term
  }

  /** Of the entries of the node's own term exactly those are committed that a majority has. */
  ghost predicate Ruled(r: Raft) {
    forall y: nat {:trigger Own(r, y)} | Own(r, y) :: y <= r.committed <==> Majority(Reached(r.prs, y), r.prs.Keys)
  }

  /** A leader has committed exactly what it may; a candidate has not been decided on, and has no
      entry of its term yet. */
  ghost predicate Keen(r: Raft) {
    && (r.role.Leader? ==> Ruled(r))
    && (r.role.Candidate? ==> Undecided(r) && r.term > 0 && forall y: nat {:trigger Own(r, y)} :: !Own(r, y))
  }

  // ---------------------------------------------------------------- the rule is kept

  lemma ReachedGrows(prs: map<NodeId, Progress>, prs': map<NodeId, Progress>, y: nat)
    requires prs'.Keys == prs.Keys && (forall v | v in prs :: prs[v].matched <= prs'[v].matched)
    requires Majority(Reached(prs, y), prs.Keys)
    ensures Majority(Reached(prs', y), prs'.Keys)
  {
    MajorityGrows(Reached(prs, y), Reached(prs', y), prs.Keys);
  }

  lemma ReachedBelow(prs: map<NodeId, Progress>, x: nat, y: nat)
    requires y <= x && Majority(Reached(prs, x), prs.Keys)
    ensures Majority(Reached(prs, y), prs.Keys)
  {
    MajorityGrows(Reached(prs, x), Reached(prs, y), prs.Keys);
  }

  /** From r to r1 the log and the match indices only grow; what r has committed of its own term
      is held by a majority. Then committing what is ripe in r1 obeys the rule. */
  lemma RuleKept(r: Raft, r1: Raft, c: nat)
    requires r1.term == r.term && r1.committed == r.committed <= Last(r) && r.view.off == 0 && r1.view.off == 0
    requires r.view.ents <= r1.view.ents && r1.prs.Keys == r.prs.Keys && CommitsTo(r1, c)
    requires forall y: nat {:trigger Own(r, y)} | Own(r, y) && y <= r.committed :: Majority(Reached(r1.prs, y), r1.prs.Keys)
    ensures Ruled(r1.(committed := c))
  {
    var r2 := r1.(committed := c);
    forall y: nat | Own(r2, y) ensures y <= c <==> Majority(Reached(r2.prs, y), r2.prs.Keys) {
      if Majority(Reached(r2.prs, y), r2.prs.Keys) {
        assert Ripe(r1, y);
      } else if y <= c {
        if c == r.committed {
          assert Own(r, y);
        } else {
          ReachedBelow(r1.prs, c, y);
        }
      }
    }
  }

  /** Only what the rule does not look at has changed. */
  ghost predicate Alike(r: Raft, r': Raft) {
    && r'.term == r.term && r'.view == r.view && r'.committed == r.committed && r'.role == r.role && r'.votes == r.votes
    && r'.prs.Keys == r.prs.Keys && forall v | v in r.prs :: r'.prs[v].matched == r.prs[v].matched
  }

  lemma AlikeKeen(r: Raft, r': Raft)
    requires Keen(r) && Alike(r, r')
    ensures Keen(r')
  {
    forall y: nat ensures Own(r', y) <==> Own(r, y) {
    }
    forall y: nat ensures Reached(r'.prs, y) == Reached(r.prs, y) {
    }
  }

  lemma SentAlike(p: Progress, x: Message, q: Progress)
    requires SentTo(p, x, q)
    ensures q.matched == p.matched
  {
  }

  lemma BroadcastAlike(r: Raft, r': Raft, out: set<Message>)
    requires Broadcasts(r, r', out)
    ensures Alike(r, r') && r'.id == r.id
  {
    hide Brings;
    forall v | v in r.prs ensures r'.prs[v].matched == r.prs[v].matched {
      if v != r.id {
        assert Served(r, v, r'.prs[v], out);
      }
    }
  }

  // ---------------------------------------------------------------- a leader's steps

  lemma CreditRises(p: Progress, n: nat, q: Progress)
    requires Credited(p, n, q)
    ensures q.matched == n
  {
  }

  /** A new acknowledgement leads to the credited record and the commit index that is right for
      it, whatever is then sent. */
  lemma AckOutcome(r: Raft, m: Message) returns (q: Progress, r2: Raft)
    requires Leading(r) && m.kind.MsgAppResp? && !m.reject && m.term == r.term && m.from in r.prs
    requires r.prs[m.from].matched < m.index <= Last(r)
    ensures q.matched == m.index && r2 == r.(prs := r.prs[m.from := q], committed := r2.committed)
    ensures CommitsTo(r.(prs := r.prs[m.from := q]), r2.committed)
    ensures Step(r, m).Done? && Alike(r2, Step(r, m).r) && Step(r, m).r.id == r.id
  {
    hide Step, CommitsTo, Broadcasts, Credited, Brings, SentTo, Leading, Alike;
    q, r2 := AcknowledgementExactly(r, m);
    CreditRises(r.prs[m.from], m.index, q);
    var o := Step(r, m);
    if r2.committed > r.committed {
      BroadcastAlike(r2, o.r, o.out);
    } else if IsPaused(r.prs[m.from]) && !IsPaused(q) {
      var x, q' :| o.out == {x} && Brings(r2, m.from, q.next, x) && SentTo(q, x, q') && OneRecord(r2, m.from, q', o.r);
      SentAlike(q, x, q');
      RecordAlike(r2, m.from, q', o.r);
    } else {
      SettledAlike(r2, o.r);
    }
  }

  lemma RecordAlike(r: Raft, v: NodeId, q: Progress, r': Raft)
    requires OneRecord(r, v, q, r') && v in r.prs && q.matched == r.prs[v].matched
    ensures Alike(r, r') && r'.id == r.id
  {
  }

  lemma SettledAlike(r: Raft, r': Raft)
    requires r' == r.(commit := r'.commit)
    ensures Alike(r, r') && r'.id == r.id
  {
  }

  lemma AckKeen(r: Raft, m: Message)
    requires Firm(r) && Keen(r) && r.role.Leader? && m.kind.MsgAppResp? && !m.reject && m.term == r.term && m.from in r.prs
    requires m.index <= Last(r)
    ensures Step(r, m).Done? && Keen(Step(r, m).r)
  {
    hide Step, Ordered;
    if m.index <= r.prs[m.from].matched {
      OldAcknowledgement(r, m);
      AlikeKeen(r, Step(r, m).r);
    } else {
      var q, r2 := AckOutcome(r, m);
      AckRuled(r, r.(prs := r.prs[m.from := q]), r2.committed);
      hide CommitsTo, Keen, Ruled, Alike;
      RuledKeen(r2);
      AlikeKeen(r2, Step(r, m).r);
    }
  }

  lemma RuledKeen(r: Raft)
    requires r.role.Leader? && Ruled(r)
    ensures Keen(r)
  {
  }

  lemma AckRuled(r: Raft, r1: Raft, c: nat)
    requires Firm(r) && Ruled(r) && r1 == r.(prs := r1.prs) && r1.prs.Keys == r.prs.Keys && CommitsTo(r1, c)
    requires forall v | v in r.prs :: r.prs[v].matched <= r1.prs[v].matched
    ensures Ruled(r1.(committed := c))
  {
    hide Ordered, CommitsTo;
    forall y: nat | Own(r, y) && y <= r.committed ensures Majority(Reached(r1.prs, y), r1.prs.Keys) {
      ReachedGrows(r.prs, r1.prs, y);
    }
    RuleKept(r, r1, c);
  }

  lemma ProposalKeen(r: Raft, m: Message)
    requires Firm(r) && Keen(r) && r.role.Leader? && m.kind.MsgProp? && m.term == 0 && m.entries != []
    ensures Step(r, m).Done? && Keen(Step(r, m).r)
  {
    hide Step, Ordered, CommitsTo, Broadcasts;
    var r1, r2 := ProposalExactly(r, m);
    TakesInGrows(r, m.entries, r1);
    forall y: nat | Own(r, y) && y <= r.committed ensures Majority(Reached(r1.prs, y), r1.prs.Keys) {
      ReachedGrows(r.prs, r1.prs, y);
    }
    RuleKept(r, r1, r2.committed);
    hide Ruled;
    RuledKeen(r2);
    BroadcastAlike(r2, Step(r, m).r, Step(r, m).out);
    AlikeKeen(r2, Step(r, m).r);
  }

  lemma TakesInGrows(r: Raft, data: seq<Entry>, r1: Raft)
    requires TakesIn(r, data, r1) && r.view.off == 0 && forall v | v in r.prs :: r.prs[v].matched <= Last(r)
    ensures r1.term == r.term && r1.committed == r.committed && r1.role == r.role && r.view.ents <= r1.view.ents && r1.view.off == 0
    ensures r1.prs.Keys == r.prs.Keys && forall v | v in r.prs :: r.prs[v].matched <= r1.prs[v].matched
  {
    assert r.view.ents == r1.view.ents[..|r.view.ents|];
  }

  /** Everything else that a leader does in its term. */
  lemma OtherAlike(r: Raft, m: Message)
    requires Firm(r) && r.role.Leader? && (m.term == 0 || m.term == r.term) && Step(r, m).Done?
    requires !m.kind.MsgHup? && !m.kind.MsgProp? && !(m.kind.MsgAppResp? && !m.reject)
    ensures Alike(r, Step(r, m).r)
  {
    LeaderStep(r, m);
    hide Firm, Step;
    if m.from in r.prs && ((m.kind.MsgAppResp? && m.reject) || m.kind.MsgHeartbeatResp?) {
      RecordsAlike(r, m);
      hide LeaderRejected, LeaderHeartbeatResp;
    } else {
      hide LeaderRejected, LeaderHeartbeatResp, LeaderAccepted;
    }
  }

  lemma LeaderStep(r: Raft, m: Message)
    requires r.role.Leader? && (m.term == 0 || m.term == r.term) && !m.kind.MsgHup?
    ensures Step(r, m) == Settled(StepLeader(r, m))
  {
    hide StepLeader;
  }

  lemma RecordsAlike(r: Raft, m: Message)
    requires r.role.Leader? && m.from in r.prs
    ensures m.kind.MsgAppResp? && m.reject && LeaderRejected(r, m).Done? ==> Alike(r, LeaderRejected(r, m).r)
    ensures m.kind.MsgHeartbeatResp? && LeaderHeartbeatResp(r, m).Done? ==> Alike(r, LeaderHeartbeatResp(r, m).r)
  {
    hide LeaderRejected, LeaderHeartbeatResp, Alike;
    if m.reject && LeaderRejected(r, m).Done? {
      RejectedAlike(r, m);
    }
    AnsweredAlike(r, m);
  }

  lemma RejectedAlike(r: Raft, m: Message)
    requires r.role.Leader? && m.from in r.prs && LeaderRejected(r, m).Done?
    ensures Alike(r, LeaderRejected(r, m).r)
  {
    var r1 := SetProgress(r, m.from, LowerRecord(r.prs[m.from], m.index, m.rejectHint));
    assert Alike(r, r1);
    SendKeepsMatch(r1, m.from);
    hide SendAppend, MaybeDecrTo, BecomeProbe;
  }

  lemma AnsweredAlike(r: Raft, m: Message)
    requires r.role.Leader? && m.from in r.prs
    ensures LeaderHeartbeatResp(r, m).Done? ==> Alike(r, LeaderHeartbeatResp(r, m).r)
  {
    var p := r.prs[m.from];
    if !(p.state.Replicate? && Full(p) && p.ins == []) {
      var p1 := if p.state.Replicate? && Full(p) then p.(ins := FreeTo(p.ins, p.ins[0])) else p;
      SendKeepsMatch(SetProgress(r, m.from, p1), m.from);
    }
    hide SendAppend, FreeTo;
  }

  lemma SendKeepsMatch(r: Raft, to: NodeId)
    requires to in r.prs
    ensures SendAppend(r, to).Done? ==> Alike(r, SendAppend(r, to).r)
  {
  }

  // ---------------------------------------------------------------- elections

  /** Entries of the new leader's term are the empty one alone, which is not committed yet. */
  lemma OfficeRuled(r: Raft, r1: Raft, c: nat)
    requires TakesOffice(r, r1) && r.view.off == 0 && r.committed <= Last(r) && CommitsTo(r1, c) && forall y: nat :: !Own(r, y)
    ensures Ruled(r1.(committed := c)) && r1.role.Leader?
  {
    assert r.view.ents == r1.view.ents[..|r.view.ents|];
    assert forall y: nat {:trigger Own(r, y)} :: !Own(r, y);
    RuleKept(r, r1, c);
  }

  lemma NotOwn(r: Raft, r': Raft)
    requires Ordered(r) && r.view.off == 0 && r'.view == r.view && r'.term > r.term
    ensures forall y: nat {:trigger Own(r', y)} :: !Own(r', y)
  {
  }

  lemma CampaignKeen(r: Raft, m: Message)
    requires Firm(r) && !r.role.Leader? && m.kind.MsgHup?
    ensures Step(r, m).Done? && Keen(Step(r, m).r)
  {
    hide Step, AsksAll;
    var r1 := CampaignExactly(r, m);
    NotOwn(r, r1);
    hide Ordered;
    var o := Step(r, m);
    if |r.prs| == 1 {
      var r2 :| TakesOffice(r1, r2) && o.r == r2.(committed := o.r.committed, commit := o.r.commit) && CommitsTo(r2, o.r.committed);
      OfficeRuled(r1, r2, o.r.committed);
      RuledKeen(r2.(committed := o.r.committed));
      AlikeKeen(r2.(committed := o.r.committed), o.r);
    } else {
      AloneUndecided(r1);
      assert Alike(r1, o.r);
      AlikeKeen(r1, o.r);
    }
  }

  lemma AloneUndecided(r: Raft)
    requires r.votes == map[r.id := true] && r.id in r.prs && |r.prs| != 1
    ensures Undecided(r)
  {
    assert Ayes(r.votes) == {r.id} && Noes(r.votes) == {};
    assert |r.prs| == |r.prs.Keys|;
    SubsetSize({r.id}, r.prs.Keys);
  }

  lemma TallyKeen(r: Raft, m: Message)
    requires Firm(r) && Keen(r) && r.role.Candidate? && m.kind.MsgVoteResp? && m.term == r.term
    ensures Step(r, m).Done? && Keen(Step(r, m).r)
  {
    hide Step, Ordered, CommitsTo, Broadcasts, Majority, Ayes, Noes;
    var r1, r2 := TallyExactly(r, m);
    var o := Step(r, m);
    if Majority(Ayes(Counted(r, m)), r.prs.Keys) {
      OfficeRuled(r, r1, r2.committed);
      hide TakesOffice, Ruled;
      RuledKeen(r2);
      BroadcastAlike(r2, o.r, o.out);
      AlikeKeen(r2, o.r);
    } else if !Majority(Noes(Counted(r, m)), r.prs.Keys) {
      var r' := r.(votes := Counted(r, m), commit := r.committed);
      assert Undecided(r');
      forall y: nat ensures Own(r', y) <==> Own(r, y) {
      }
    }
  }

  lemma HandlersFollow(r: Raft, m: Message)
    requires r.role.Follower?
    ensures HandleAppendEntries(r, m).Done? ==> HandleAppendEntries(r, m).r.role.Follower?
    ensures HandleHeartbeat(r, m).Done? ==> HandleHeartbeat(r, m).r.role.Follower?
    ensures HandleSnapshot(r, m).Done? ==> HandleSnapshot(r, m).r.role.Follower?
  {
    hide MaybeAppend, CommitTo, MatchTerm;
  }

  /** What else a candidate does in its term: nothing, or it becomes a follower. */
  lemma CandidateElse(r: Raft, m: Message)
    requires r.role.Candidate? && (m.term == 0 || m.term == r.term) && !m.kind.MsgHup? && !m.kind.MsgVoteResp? && Step(r, m).Done?
    ensures Step(r, m).r.role.Follower? || Alike(r, Step(r, m).r)
  {
    HandlersFollow(BecomeFollower(r, r.term, m.from), m);
    HandlersFollow(BecomeFollower(r, m.term, m.from), m);
    hide HandleAppendEntries, HandleHeartbeat, HandleSnapshot;
  }

  lemma FollowerElse(r: Raft, m: Message)
    requires r.role.Follower? && (m.term == 0 || m.term == r.term) && !m.kind.MsgHup? && Step(r, m).Done?
    ensures Step(r, m).r.role.Follower?
  {
    hide MaybeAppend, CommitTo, MatchTerm;
  }

  lemma LaterFollows(r: Raft, m: Message)
    requires m.term > r.term && !m.kind.MsgHup? && Step(r, m).Done?
    ensures Step(r, m).r.role.Follower?
  {
    FollowerElse(CatchUp(r, m), m);
    hide Dispatch;
  }

  /** Every step keeps it. */
  lemma StepKeen(r: Raft, m: Message)
    requires Firm(r) && Keen(r) && Step(r, m).Done? && !Trips(r, m)
    requires r.role.Leader? && m.kind.MsgAppResp? && !m.reject && m.term == r.term ==> m.index <= Last(r) && m.from in r.prs
    requires m.kind.MsgProp? || m.kind.MsgBeat? || m.kind.MsgUnreachable? || m.kind.MsgSnapStatus? ==> m.term == 0
    requires m.kind.MsgAppResp? || m.kind.MsgVoteResp? ==> m.term > 0
    ensures Keen(Step(r, m).r)
  {
    hide Firm, Ruled, Undecided, Step, Alike;
    if m.kind.MsgHup? {
      CampaignKeen(r, m);
    } else if m.term > r.term {
      LaterFollows(r, m);
    } else if m.term != 0 && m.term < r.term {
      OldIsIgnored(r, m);
    } else {
      match r.role {
        case Leader =>
          if m.kind.MsgAppResp? && !m.reject {
            AckKeen(r, m);
          } else if m.kind.MsgProp? {
            ProposalKeen(r, m);
          } else {
            OtherAlike(r, m);
            AlikeKeen(r, Step(r, m).r);
          }
        case Candidate =>
          if m.kind.MsgVoteResp? {
            TallyKeen(r, m);
          } else {
            CandidateElse(r, m);
            if !Step(r, m).r.role.Follower? {
              AlikeKeen(r, Step(r, m).r);
            }
          }
        case Follower => FollowerElse(r, m);
      }
    }
  }

  // ---------------------------------------------------------------- in every run

  lemma FirmInRun(s: State, c: Group, n: NodeId)
    requires Represents(s, c) && n in c.nodes
    ensures Firm(c.nodes[n])
  {
    hide Represents, HistoryOK;
    NodeFacts(s, c, n);
    var r := c.nodes[n];
    LogsOrdered(s, r);
    CommittedWithin(s, c, n);
    assert NodeIs(s, n, r) by {
      NodeIsHere(s, c, n);
    }
    hide Ordered, NodeOK;
    if r.role.Leader? {
      LeaderTerm(s, c, n);
    }
  }

  lemma NodeIsHere(s: State, c: Group, n: NodeId)
    requires Represents(s, c) && n in c.nodes
    ensures NodeIs(s, n, c.nodes[n]) && At(s, c.nodes[n])
  {
    assert NodeIs(s, n, c.nodes[n]);
  }

  lemma LeaderTerm(s: State, c: Group, n: NodeId)
    requires Represents(s, c) && n in c.nodes && c.nodes[n].role.Leader?
    ensures c.nodes[n].term >= 1
  {
    NodeIsHere(s, c, n);
    hide Represents, At;
    LeaderFacts(s, c.nodes[n]);
  }

  lemma CommittedWithin(s: State, c: Group, n: NodeId)
    requires Represents(s, c) && n in c.nodes
    ensures c.nodes[n].committed <= Last(c.nodes[n])
  {
    NodeIsHere(s, c, n);
    hide Represents;
    Here(s, c.nodes[n]);
  }

  lemma LogsOrdered(s: State, r: Raft)
    requires HistoryOK(s.h) && LogOK(s.h.logs, r.view.ents, r.term) && r.view == Whole(r.view.ents)
    ensures Ordered(r)
  {
    forall i, j | 1 <= i <= j <= Last(r) ensures TermOf(r.view, i) <= TermOf(r.view, j) {
      TermsRise(s.h.logs, r.view.ents, r.term, i - 1, j - 1);
    }
    forall i | 1 <= i <= Last(r) ensures TermOf(r.view, i) <= r.term {
      assert EntryOK(s.h.logs, r.view.ents, r.term, i - 1);
    }
  }

  lemma SentFits(s: State, c: Group, n: NodeId, m: Message)
    requires Represents(s, c) && n in c.nodes && m in c.net
    ensures var r := c.nodes[n];
            r.role.Leader? && m.kind.MsgAppResp? && !m.reject && m.term == r.term ==> m.index <= Last(r) && m.from in r.prs
    ensures Wire(m)
  {
    NodeIsHere(s, c, n);
    InNet(s, m);
    hide Represents, MessageOK, Inv;
    var r := c.nodes[n];
    if r.role.Leader? && m.kind.MsgAppResp? && !m.reject && m.term == r.term {
      AckWithinLog(s, r, m);
    }
  }

  lemma EventKeen(s: State, c: Group, e: Event)
    requires Represents(s, c) && Enabled(c, e) && After(c, e).Done? && Keen(c.nodes[e.n])
    ensures Keen(After(c, e).r)
  {
    hide Represents, Firm, Keen, Step, Trips;
    FirmInRun(s, c, e.n);
    match e {
      case Deliver(n, m) =>
        SentFits(s, c, n, m);
        StepKeen(c.nodes[n], m);
      case Local(n, m) => StepKeen(c.nodes[n], m);
      case Restart(n, a) => FollowersKeen(Restarted(c.nodes[n], a));
    }
  }

  lemma FollowersKeen(r: Raft)
    requires r.role.Follower?
    ensures Keen(r)
  {
  }

  lemma {:induction false} AlwaysKeen(u: Run, i: nat, n: NodeId)
    requires IsRun(u) && i < |u.states| && n in u.states[i].nodes
    ensures Keen(u.states[i].nodes[n])
    decreases i
  {
    if i == 0 {
      assert StartsAs(u.states[0], n, u.boot, u.start);
      FollowersKeen(u.states[0].nodes[n]);
    } else {
      hide Keen, Init, After, Enabled, Represents;
      var c, e := u.states[i - 1], u.events[i - 1];
      assert StepAt(u, i - 1);
      StepsNode(c, e, u.states[i]);
      AlwaysKeen(u, i - 1, n);
      if n == e.n {
        var s := RunTo(u, i - 1);
        EventKeen(s, c, e);
      }
    }
  }

  lemma StepsNode(c: Group, e: Event, c': Group)
    requires Next(c, e, c')
    ensures c'.nodes.Keys == c.nodes.Keys && e.n in c.nodes && After(c, e).Done?
    ensures c'.nodes[e.n] == After(c, e).r && forall n | n in c.nodes && n != e.n :: c'.nodes[n] == c.nodes[n]
  {
  }

  /** The commit rule, exactly: in every state of every run, an entry of a leader's own term is
      committed if and only if a majority of the match indices reaches it. */
  lemma CommitRuleExactly(u: Run, i: nat, n: NodeId, y: nat)
    requires IsRun(u) && i < |u.states| && n in u.states[i].nodes
    requires var r := u.states[i].nodes[n]; r.role.Leader? && 1 <= y <= Last(r) && TermOf(r.view, y) == r.term
    ensures var r := u.states[i].nodes[n];
            y <= r.committed <==> 2 * |set v | v in r.prs && r.prs[v].matched >= y| > |r.prs|
  {
    AlwaysKeen(u, i, n);
    var r := u.states[i].nodes[n];
    assert Own(r, y);
    assert Reached(r.prs, y) == set v | v in r.prs && r.prs[v].matched >= y;
    assert |r.prs.Keys| == |r.prs|;
  }

  /** No election is left undecided that could be decided: in every state of every run a
      candidate has neither a majority of votes nor a majority of refusals. */
  lemma DecidedAtOnce(u: Run, i: nat, n: NodeId)
    requires IsRun(u) && i < |u.states| && n in u.states[i].nodes && u.states[i].nodes[n].role.Candidate?
    ensures var r := u.states[i].nodes[n];
            && 2 * |set v | v in r.votes && r.votes[v]| <= |r.prs|
            && 2 * |set v | v in r.votes && !r.votes[v]| <= |r.prs|
  {
    AlwaysKeen(u, i, n);
    var r := u.states[i].nodes[n];
    assert Ayes(r.votes) == set v | v in r.votes && r.votes[v];
    assert Noes(r.votes) == set v | v in r.votes && !r.votes[v];
    assert |r.prs.Keys| == |r.prs|;
  }

  /** In every run, a leader whose probe is refused probes strictly lower. */
  lemma ProbesFall(u: Run, i: nat, n: NodeId, m: Message) returns (x: Message)
    requires IsRun(u) && i < |u.states| && n in u.states[i].nodes && u.states[i].nodes[n].role.Leader?
    requires var r := u.states[i].nodes[n];
             && m.kind.MsgAppResp? && m.reject && m.term == r.term && m.from in r.prs && m.index > 0
             && (if r.prs[m.from].state.Replicate? then m.index > r.prs[m.from].matched else m.index + 1 == r.prs[m.from].next)
    ensures var o := Step(u.states[i].nodes[n], m);
            o.Done? && o.out == {x} && x.kind.MsgApp? && x.to == m.from && x.index < m.index
  {
    hide IsRun, Represents, Step;
    var s := RunTo(u, i);
    FirmInRun(s, u.states[i], n);
    var y, q;
    x, y, q := RejectionExactly(u.states[i].nodes[n], m);
  }
}
