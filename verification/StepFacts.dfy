/** What every call of Step keeps, whatever the message: terms and votes, the committed
    part of the log, and the flow-control windows. */
module StepFacts {
  import opened Types
  import opened LogView
  import opened ProgressSpec
  import opened NodeSpec

  // ---------------------------------------------------------------- the committed part of the log

  ghost predicate LogSane(v: View, c: nat) {
    Indexed(v) && v.off <= c <= LastIndex(v)
  }

  /** The log may change above c only; the commit index does not go back. */
  ghost predicate Keeps(v: View, c: nat, v': View, c': nat) {
    && LogSane(v', c') && c <= c'
    && v'.off == v.off && v'.offTerm == v.offTerm
    && v.off <= c && c - v.off <= |v.ents| && c - v.off <= |v'.ents|
    && v'.ents[..c - v.off] == v.ents[..c - v.off]
  }

  /** The whole log is replaced by a snapshot that lies beyond c. */
  ghost predicate Replaces(v': View, c: nat, c': nat) {
    v'.off == c' && c < c' && v'.ents == []
  }

  ghost predicate LogMoves(v: View, c: nat, v': View, c': nat) {
    LogSane(v', c') && (Keeps(v, c, v', c') || Replaces(v', c, c'))
  }

  lemma CommitToKeeps(v: View, c: nat, to: nat)
    requires LogSane(v, c)
    ensures var o := CommitTo(v, c, to);
            (o.LogPanic? <==> c < to && LastIndex(v) < to) && (!o.LogPanic? ==> o.Appended? && o.view == v && Keeps(v, c, o.view, o.committed))
  {
  }

  lemma AppendKeeps(v: View, c: nat, ents: seq<Entry>)
    requires LogSane(v, c)
    requires ents != [] ==> ents[0].index >= 1 && Follow(ents[0].index - 1, ents)
    ensures var o := Append(v, c, ents); o.Appended? ==> Keeps(v, c, o.view, o.committed)
  {
    if Append(v, c, ents).Appended? && ents != [] {
      var after := ents[0].index - 1;
      var v' := TruncateAppend(v, after, ents);
      forall k | 0 <= k < |v'.ents| ensures v'.ents[k].index == v.off + 1 + k {
        if k < after - v.off {
          assert v'.ents[k] == v.ents[k];
        } else {
          assert v'.ents[k] == ents[k - (after - v.off)];
        }
      }
      assert v'.ents[..c - v.off] == v.ents[..c - v.off];
    }
  }

  lemma KeepsTwice(v: View, c: nat, v1: View, c1: nat, v2: View, c2: nat)
    requires Keeps(v, c, v1, c1) && Keeps(v1, c1, v2, c2)
    ensures Keeps(v, c, v2, c2)
  {
    var n := c - v.off;
    assert v2.ents[..n] == v2.ents[..c1 - v1.off][..n];
    assert v1.ents[..n] == v1.ents[..c1 - v1.off][..n];
  }

  lemma MaybeAppendKeeps(v: View, c: nat, index: nat, logTerm: nat, mc: nat, ents: seq<Entry>)
    requires LogSane(v, c) && Follow(index, ents)
    ensures var o := MaybeAppend(v, c, index, logTerm, mc, ents); o.Appended? ==> Keeps(v, c, o.view, o.committed)
  {
    hide Keeps, LogSane;
    var o := MaybeAppend(v, c, index, logTerm, mc, ents);
    if o.Appended? {
      var ci := FindConflict(v, ents);
      var upTo := Min(mc, index + |ents|);
      if ci == 0 {
        CommitToKeeps(v, c, upTo);
      } else {
        var rest := ents[ci - (index + 1)..];
        FollowRest(index, ents, ci - (index + 1));
        AppendKeeps(v, c, rest);
        var a := Append(v, c, rest);
        SaneAfter(v, c, a.view, a.committed);
        CommitToKeeps(a.view, a.committed, upTo);
        KeepsTwice(v, c, a.view, a.committed, o.view, o.committed);
      }
    }
  }

  lemma SaneAfter(v: View, c: nat, v': View, c': nat)
    requires Keeps(v, c, v', c')
    ensures LogSane(v', c')
  {
  }

  // ---------------------------------------------------------------- what a node keeps

  /** Every peer's window is in order. */
  ghost predicate Windows(r: Raft) {
    forall v | v in r.prs && v != r.id :: Window(r.prs[v]) && r.prs[v].size == r.maxInflight
  }

  ghost predicate Sane(r: Raft) {
    LogSane(r.view, r.committed) && r.commit <= r.committed && r.applied <= r.committed && r.maxInflight >= 1
  }

  /** From r to r': the term does not go back, a vote cast in a term is not changed within
      it, and the committed part of the log stays or is covered by a snapshot. */
  ghost predicate Advances(r: Raft, r': Raft) {
    && r'.id == r.id && r'.applied == r.applied && r'.maxInflight == r.maxInflight
    && r.term <= r'.term
    && (r.term == r'.term && r.vote != NONE ==> r'.vote == r.vote)
    && LogMoves(r.view, r.committed, r'.view, r'.committed)
    && r'.pending == (r.pending || r'.view.off != r.view.off)
  }

  ghost predicate Fine(r: Raft, o: Outcome) {
    o.Done? ==> Advances(r, o.r) && Windows(o.r)
  }

  /** Only the records of peers, the leader and the votes counted may differ. */
  ghost predicate SameLog(r: Raft, r': Raft) {
    && r'.id == r.id && r'.applied == r.applied && r'.maxInflight == r.maxInflight
    && r'.term == r.term && r'.vote == r.vote && r'.view == r.view && r'.committed == r.committed && r'.pending == r.pending
  }

  lemma SameLogAdvances(r: Raft, r': Raft)
    requires Sane(r) && SameLog(r, r')
    ensures Advances(r, r')
  {
  }

  lemma AdvancesTwice(r: Raft, r1: Raft, r2: Raft)
    requires Advances(r, r1) && Advances(r1, r2)
    requires Keeps(r.view, r.committed, r1.view, r1.committed) || (r2.view == r1.view && r2.committed == r1.committed)
    ensures Advances(r, r2)
  {
    if Keeps(r.view, r.committed, r1.view, r1.committed) && Keeps(r1.view, r1.committed, r2.view, r2.committed) {
      KeepsTwice(r.view, r.committed, r1.view, r1.committed, r2.view, r2.committed);
    }
  }

  // ---------------------------------------------------------------- sending

  lemma OutstandingLast(r: Raft, next: Pos)
    requires Indexed(r.view) && (next > Last(r) || FirstIndex(r.view) <= next)
    ensures var ents := Outstanding(r, next); ents != [] ==> ents[|ents| - 1].index >= next
  {
  }

  lemma AppendToWindow(r: Raft, to: NodeId)
    requires Indexed(r.view) && to in r.prs && Window(r.prs[to])
    ensures AppendTo(r, to).Sent? ==> Window(AppendTo(r, to).pr) && AppendTo(r, to).pr.size == r.prs[to].size
  {
    var pr := r.prs[to];
    if !IsPaused(pr) && !(pr.next <= Last(r) && pr.next < FirstIndex(r.view)) {
      OutstandingLast(r, pr.next);
    }
  }

  lemma SendAppendFine(r: Raft, to: NodeId)
    requires Sane(r) && Windows(r)
    ensures Fine(r, SendAppend(r, to)) && (SendAppend(r, to).Done? ==> SameLog(r, SendAppend(r, to).r))
  {
    if to in r.prs && to != r.id {
      AppendToWindow(r, to);
    }
  }

  lemma BcastAppendFine(r: Raft)
    requires Sane(r) && Windows(r)
    ensures Fine(r, BcastAppend(r)) && (BcastAppend(r).Done? ==> SameLog(r, BcastAppend(r).r))
  {
    hide AppendTo;
    if AllSend(r) {
      var r' := BcastAppend(r).r;
      forall v | v in r'.prs && v != r'.id ensures Window(r'.prs[v]) && r'.prs[v].size == r'.maxInflight {
        AppendToWindow(r, v);
      }
    }
  }

  lemma BcastHeartbeatFine(r: Raft)
    requires Sane(r) && Windows(r)
    ensures Fine(r, BcastHeartbeat(r))
  {
  }

  // ---------------------------------------------------------------- committing and appending

  /** Steps that touch only the log, within what Keeps allows. */
  ghost predicate LogOnly(r: Raft, r': Raft) {
    && r'.id == r.id && r'.applied == r.applied && r'.maxInflight == r.maxInflight
    && r'.term == r.term && r'.vote == r.vote && r'.pending == r.pending
    && Keeps(r.view, r.committed, r'.view, r'.committed)
  }

  lemma LogOnlyAdvances(r: Raft, r': Raft)
    requires LogOnly(r, r')
    ensures Advances(r, r') && (r.commit == r'.commit && Sane(r) ==> Sane(r'))
  {
  }

  lemma MaybeCommitFine(r: Raft)
    requires Sane(r) && Windows(r)
    ensures MaybeCommit(r).Done? ==> LogOnly(r, MaybeCommit(r).r) && MaybeCommit(r).r.prs == r.prs && MaybeCommit(r).r.commit == r.commit
  {
    hide Keeps;
    if r.prs != map[] {
      CommitToKeeps(r.view, r.committed, QuorumIndex(r.prs));
      CommitToKeeps(r.view, r.committed, 0);
    }
  }

  lemma StampFollows(term: nat, before: nat, ents: seq<Entry>)
    ensures Follow(before, Stamp(term, before, ents)) && |Stamp(term, before, ents)| == |ents|
  {
  }

  lemma AppendEntryFine(r: Raft, ents: seq<Entry>)
    requires Sane(r) && Windows(r)
    ensures var o := AppendEntry(r, ents); o.Done? ==> LogOnly(r, o.r) && Windows(o.r) && Sane(o.r)
  {
    hide Keeps;
    var o := AppendEntry(r, ents);
    if o.Done? {
      var es := Stamp(r.term, Last(r), ents);
      StampFollows(r.term, Last(r), ents);
      AppendKeeps(r.view, r.committed, es);
      var r1 := r.(view := Append(r.view, r.committed, es).view);
      var r2 := r1.(prs := r1.prs[r.id := MaybeUpdate(r1.prs[r.id], Last(r1))]);
      LogOnlyAdvances(r, r2);
      MaybeCommitFine(r2);
      KeepsTwice(r.view, r.committed, r2.view, r2.committed, o.r.view, o.r.committed);
      LogOnlyAdvances(r, o.r);
    }
  }

  // ---------------------------------------------------------------- changing role

  lemma ResetFine(r: Raft, term: nat)
    requires r.maxInflight >= 1
    ensures Windows(Reset(r, term))
  {
  }

  lemma FollowerFine(r: Raft, term: nat, lead: NodeId)
    requires Sane(r) && term >= r.term
    ensures var r' := BecomeFollower(r, term, lead);
            Advances(r, r') && Windows(r') && Sane(r') && r'.view == r.view && r'.committed == r.committed && r'.commit == r.commit
  {
    ResetFine(r, term);
  }

  lemma BecomeLeaderFine(r: Raft)
    requires Sane(r)
    ensures var o := BecomeLeader(r); o.Done? ==> LogOnly(r, o.r) && Windows(o.r) && Sane(o.r)
  {
    hide Keeps;
    ResetFine(r, r.term);
    AppendEntryFine(Reset(r, r.term).(lead := r.id, role := Leader), [Entry(0, 0, Nil)]);
  }

  lemma LeadThenBcastFine(r: Raft, o: Outcome)
    requires o.Done? ==> LogOnly(r, o.r) && Windows(o.r) && Sane(o.r)
    ensures Fine(r, Then(o, BcastAppend))
  {
    hide Keeps, BcastAppend;
    if o.Done? {
      BcastAppendFine(o.r);
      if BcastAppend(o.r).Done? {
        LogOnlyAdvances(r, BcastAppend(o.r).r);
      }
    }
  }

  lemma CampaignFine(r: Raft)
    requires Sane(r)
    ensures Fine(r, Campaign(r))
  {
    hide Keeps;
    if !r.role.Leader? {
      var r2 := Polled(BecomeCandidate(r).r, r.id, true);
      ResetFine(r, r.term + 1);
      BecomeLeaderFine(r2);
      if Campaign(r).Done? {
        CommitToKeeps(r.view, r.committed, 0);
      }
    }
  }

  lemma VoteRespFine(r: Raft, m: Message)
    requires Sane(r) && Windows(r)
    ensures Fine(r, CandidateVoteResp(r, m))
  {
    hide Keeps, BecomeLeader, BcastAppend;
    var r1 := Polled(r, m.from, !m.reject);
    BecomeLeaderFine(r1);
    LeadThenBcastFine(r1, BecomeLeader(r1));
    FollowerFine(r1, r1.term, NONE);
    SameLogAdvances(r, r1);
  }

  // ---------------------------------------------------------------- handlers of follower messages

  lemma HandleAppendFine(r: Raft, m: Message)
    requires Sane(r) && Windows(r) && Follow(m.index, m.entries)
    ensures Fine(r, HandleAppendEntries(r, m))
  {
    hide Keeps, MaybeAppend;
    SameLogAdvances(r, r);
    MaybeAppendKeeps(r.view, r.committed, m.index, m.logTerm, m.commit, m.entries);
    var o := HandleAppendEntries(r, m);
    if o.Done? && m.index >= r.commit && MaybeAppend(r.view, r.committed, m.index, m.logTerm, m.commit, m.entries).Appended? {
      LogOnlyAdvances(r, o.r);
    }
  }

  lemma HandleHeartbeatFine(r: Raft, m: Message)
    requires Sane(r) && Windows(r)
    ensures Fine(r, HandleHeartbeat(r, m))
  {
    hide Keeps;
    CommitToKeeps(r.view, r.committed, m.commit);
    if HandleHeartbeat(r, m).Done? {
      LogOnlyAdvances(r, HandleHeartbeat(r, m).r);
    }
  }

  lemma HandleSnapshotFine(r: Raft, m: Message)
    requires Sane(r) && Windows(r)
    ensures Fine(r, HandleSnapshot(r, m))
  {
    hide Keeps;
    SameLogAdvances(r, r);
    CommitToKeeps(r.view, r.committed, m.snapshot.index);
    var s := m.snapshot;
    if s.index > r.committed && MatchTerm(r.view, s.index, s.term) && HandleSnapshot(r, m).Done? {
      LogOnlyAdvances(r, HandleSnapshot(r, m).r);
    }
  }

  // ---------------------------------------------------------------- handlers of a leader

  lemma RecordFine(r: Raft, v: NodeId, pr: Progress)
    requires Sane(r) && Windows(r) && (v != r.id ==> Window(pr) && pr.size == r.maxInflight)
    ensures var r' := SetProgress(r, v, pr); Advances(r, r') && Windows(r') && Sane(r') && SameLog(r, r')
  {
    SameLogAdvances(r, SetProgress(r, v, pr));
  }

  lemma RecordThenSend(r: Raft, v: NodeId, pr: Progress, to: NodeId)
    requires Sane(r) && Windows(r) && (v != r.id ==> Window(pr) && pr.size == r.maxInflight)
    ensures Fine(r, SendAppend(SetProgress(r, v, pr), to))
  {
    hide SendAppend;
    var r1 := SetProgress(r, v, pr);
    RecordFine(r, v, pr);
    SendAppendFine(r1, to);
    if SendAppend(r1, to).Done? {
      SameLogAdvances(r, SendAppend(r1, to).r);
    }
  }

  lemma RejectedFine(r: Raft, m: Message)
    requires Sane(r) && Windows(r) && m.from in r.prs
    ensures Fine(r, LeaderRejected(r, m))
  {
    hide SendAppend;
    SameLogAdvances(r, r);
    var pr1 := MaybeDecrTo(r.prs[m.from], m.index, m.rejectHint);
    RecordThenSend(r, m.from, if pr1.state.Replicate? then BecomeProbe(pr1) else pr1, m.from);
  }

  lemma AcknowledgedWindow(pr: Progress, n: nat)
    requires Window(pr) && pr.matched < n
    ensures Window(Acknowledged(pr, n)) && Acknowledged(pr, n).size == pr.size
  {
    if pr.state.Replicate? {
      AckKeepsWindow(pr, n);
    }
  }

  lemma AcceptedFine(r: Raft, m: Message)
    requires Sane(r) && Windows(r) && m.from in r.prs
    ensures Fine(r, LeaderAccepted(r, m))
  {
    hide Keeps, SendAppend, BcastAppend, MaybeCommit, Acknowledged;
    var pr := r.prs[m.from];
    if m.index <= pr.matched {
      RecordFine(r, m.from, MaybeUpdate(pr, m.index));
    } else {
      if m.from != r.id {
        AcknowledgedWindow(pr, m.index);
      }
      var r1 := SetProgress(r, m.from, Acknowledged(pr, m.index));
      RecordFine(r, m.from, Acknowledged(pr, m.index));
      MaybeCommitFine(r1);
      if MaybeCommit(r1).Done? {
        SentAfterAck(r, MaybeCommit(r1).r, m.from);
      }
    }
  }

  lemma SentAfterAck(r: Raft, r2: Raft, to: NodeId)
    requires Sane(r) && LogOnly(r, r2) && Windows(r2) && r2.commit == r.commit
    ensures Fine(r, BcastAppend(r2)) && Fine(r, SendAppend(r2, to)) && Advances(r, r2)
  {
    hide Keeps, SendAppend, BcastAppend;
    LogOnlyAdvances(r, r2);
    BcastAppendFine(r2);
    SendAppendFine(r2, to);
    if BcastAppend(r2).Done? {
      LogOnlyAdvances(r, BcastAppend(r2).r);
    }
    if SendAppend(r2, to).Done? {
      LogOnlyAdvances(r, SendAppend(r2, to).r);
    }
  }

  lemma HeartbeatRespFine(r: Raft, m: Message)
    requires Sane(r) && Windows(r) && m.from in r.prs
    ensures Fine(r, LeaderHeartbeatResp(r, m))
  {
    hide SendAppend;
    var pr := r.prs[m.from];
    if !(pr.state.Replicate? && Full(pr) && pr.ins == []) {
      var pr1 := if pr.state.Replicate? && Full(pr) then pr.(ins := FreeTo(pr.ins, pr.ins[0])) else pr;
      if m.from != r.id && pr.state.Replicate? && Full(pr) {
        FreeFirstOne(pr.ins);
      }
      RecordFine(r, m.from, pr1);
      RecordThenSend(r, m.from, pr1, m.from);
    }
  }

  lemma SnapStatusFine(r: Raft, m: Message)
    requires Sane(r) && Windows(r) && m.from in r.prs
    ensures Fine(r, LeaderSnapStatus(r, m)) && Fine(r, LeaderUnreachable(r, m))
  {
    SameLogAdvances(r, r);
    var pr := r.prs[m.from];
    var pr1 := BecomeProbe(if m.reject then pr.(pending := 0) else pr);
    RecordFine(r, m.from, pr1.(paused := true));
    RecordFine(r, m.from, if pr.state.Replicate? then BecomeProbe(pr) else pr);
  }

  lemma LeaderFine(r: Raft, m: Message)
    requires Sane(r) && Windows(r)
    ensures Fine(r, StepLeader(r, m))
  {
    hide Keeps, AppendEntry, BcastAppend, LeaderRejected, LeaderAccepted, LeaderHeartbeatResp, LeaderSnapStatus, LeaderUnreachable;
    SameLogAdvances(r, r);
    BcastHeartbeatFine(r);
    AppendEntryFine(r, m.entries);
    LeadThenBcastFine(r, AppendEntry(r, m.entries));
    if m.from in r.prs {
      RejectedFine(r, m);
      AcceptedFine(r, m);
      HeartbeatRespFine(r, m);
      SnapStatusFine(r, m);
    }
  }

  // ---------------------------------------------------------------- Step

  /** What the source demands of a message: append entries follow the index they name
      without a gap, and a snapshot carries its sender's term. */
  predicate Proper(m: Message) {
    && (m.kind.MsgApp? ==> Follow(m.index, m.entries))
    && (m.kind.MsgSnap? ==> m.term >= 1)
  }

  lemma FollowerStepFine(r: Raft, m: Message)
    requires Sane(r) && Windows(r) && Proper(m)
    ensures Fine(r, StepFollower(r, m))
  {
    hide Keeps, HandleAppendEntries, HandleHeartbeat, HandleSnapshot;
    SameLogAdvances(r, r);
    if m.kind.MsgApp? {
      HandleAppendFine(r.(lead := m.from), m);
    }
    HandleHeartbeatFine(r.(lead := m.from), m);
    HandleSnapshotFine(r, m);
  }

  lemma YieldFine(r: Raft, r1: Raft, o: Outcome)
    requires Advances(r, r1) && r1.view == r.view && r1.committed == r.committed && Sane(r) && Fine(r1, o)
    ensures Fine(r, o)
  {
    hide Keeps;
    if o.Done? {
      CommitToKeeps(r.view, r.committed, 0);
      AdvancesTwice(r, r1, o.r);
    }
  }

  lemma CandidateStepFine(r: Raft, m: Message)
    requires Sane(r) && Windows(r) && Proper(m) && (m.kind.MsgSnap? ==> m.term == r.term)
    ensures Fine(r, StepCandidate(r, m))
  {
    hide Keeps, HandleAppendEntries, HandleHeartbeat, HandleSnapshot, CandidateVoteResp, BecomeFollower, Advances;
    SameLogAdvances(r, r);
    VoteRespFine(r, m);
    var r1 := BecomeFollower(r, r.term, m.from);
    FollowerFine(r, r.term, m.from);
    if m.kind.MsgApp? {
      HandleAppendFine(r1, m);
      YieldFine(r, r1, HandleAppendEntries(r1, m));
    }
    HandleHeartbeatFine(r1, m);
    YieldFine(r, r1, HandleHeartbeat(r1, m));
    HandleSnapshotFine(r1, m);
    YieldFine(r, r1, HandleSnapshot(r1, m));
  }

  lemma DispatchFine(r: Raft, m: Message)
    requires Sane(r) && Windows(r) && Proper(m) && (m.kind.MsgSnap? ==> m.term == r.term)
    ensures Fine(r, Dispatch(r, m))
  {
    hide Fine, StepLeader, StepCandidate, StepFollower;
    match r.role {
      case Leader => LeaderFine(r, m);
      case Candidate => CandidateStepFine(r, m);
      case Follower => FollowerStepFine(r, m);
    }
  }

  /** Every Step, with any message the source allows and in any state: the term never goes
      back, a vote is never changed within its term, committed entries stay in place or are
      covered by a snapshot, and every peer's window stays strictly rising between its
      match and next index, never overfull. */
  lemma StepAdvances(r: Raft, m: Message)
    requires Sane(r) && Windows(r) && Proper(m)
    ensures var o := Step(r, m); o.Done? ==> Advances(r, o.r) && Windows(o.r) && Sane(o.r)
  {
    hide Dispatch, Campaign, Keeps;
    SameLogAdvances(r, r);
    CampaignFine(r);
    var r1 := CatchUp(r, m);
    if m.term > r.term {
      FollowerFine(r, m.term, if m.kind.MsgVote? then NONE else m.from);
    }
    if !(m.term != 0 && m.term < r.term) {
      DispatchFine(r1, m);
      YieldFine(r, r1, Dispatch(r1, m));
    }
    if Step(r, m).Done? {
      AdvancesSane(r, Step(r, m).r);
    }
  }

  lemma AdvancesSane(r: Raft, r': Raft)
    requires Sane(r) && Advances(r, r')
    ensures r'.commit <= r'.committed ==> Sane(r')
  {
  }
}
