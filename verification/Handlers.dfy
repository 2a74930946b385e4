/** What a node does with each kind of message, told from the message, the log and the records
    of the peers alone. Nothing here names a handler: each statement is about Step. */
module Handlers {
  import opened Types
  import opened LogView
  import opened ProgressSpec
  import opened NodeSpec
  import opened Quorums
  import opened StepFacts
  import opened LogRefinement

  // ---------------------------------------------------------------- votes

  /** A log that ends with the given term and index is not behind v. */
  predicate NotBehind(term: nat, index: nat, v: View) {
    term > LastTermOf(v) || (term == LastTermOf(v) && index >= LastIndex(v))
  }

  /** A request for a vote is granted if and only if the node is free to vote in that term and
      the candidate's log is not behind its own. Exactly one answer goes out; the log is not
      touched, and in the node's own term nothing changes but the vote. */
  lemma VoteExactly(r: Raft, m: Message)
    requires m.kind.MsgVote? && m.term >= r.term
    ensures var free := m.term > r.term || (r.role.Follower? && (r.vote == NONE || r.vote == m.from));
            var grants := free && NotBehind(m.logTerm, m.index, r.view);
            var o := Step(r, m);
            && o.Done? && o.out == {Blank(MsgVoteResp, m.from, r.id, m.term).(reject := !grants)}
            && o.r.vote == (if grants then m.from else if m.term > r.term then NONE else r.vote)
            && o.r.term == m.term && o.r.view == r.view && o.r.committed == r.committed
            && (m.term == r.term ==> o.r == r.(vote := o.r.vote, commit := r.committed))
            && (m.term > r.term ==> o.r.role.Follower? && o.r.lead == NONE)
  {
  }

  /** A message of an earlier term does nothing. */
  lemma OldIsIgnored(r: Raft, m: Message)
    requires 0 < m.term < r.term && !m.kind.MsgHup?
    ensures Step(r, m) == Done(r, {})
  {
  }

  // ---------------------------------------------------------------- appending

  /** The node takes an append message as a follower of its sender. */
  predicate Heeds(r: Raft, m: Message) {
    m.term >= r.term && (m.term == r.term ==> !r.role.Leader?)
  }

  function AppendReply(r: Raft, m: Message): Message {
    Blank(MsgAppResp, m.from, r.id, m.term)
  }

  /** The entries of the message are numbered and of real terms, and the entry before them is
      said to be of a real term unless it is the base of the log. */
  predicate WellFormed(r: Raft, m: Message) {
    && Follow(m.index, m.entries) && (forall k | 0 <= k < |m.entries| :: m.entries[k].term > 0)
    && (m.index > Last(r) ==> m.logTerm > 0)
  }

  /** Node r as a follower of the sender, before it looks at the message. */
  ghost predicate Heeding(r: Raft, m: Message, r0: Raft) {
    && r0.id == r.id && r0.view == r.view && r0.committed == r.committed && r0.commit == r.commit
    && r0.term == m.term && r0.role.Follower? && r0.lead == m.from
  }

  lemma AppendStart(r: Raft, m: Message) returns (r0: Raft)
    requires m.kind.MsgApp? && Heeds(r, m)
    ensures Heeding(r, m, r0) && Step(r, m) == Settled(HandleAppendEntries(r0, m))
  {
    r0 := (if m.term > r.term || r.role.Candidate? then BecomeFollower(r, m.term, m.from) else r).(lead := m.from);
    if m.term > r.term {
      assert CatchUp(r, m).(lead := m.from) == r0;
    }
    hide HandleAppendEntries;
  }

  lemma ShortcutReply(r: Raft, m: Message)
    requires m.kind.MsgApp? && Heeds(r, m) && m.index < r.commit
    ensures var o := Step(r, m);
            && o.Done? && o.out == {AppendReply(r, m).(index := r.commit)}
            && o.r.view == r.view && o.r.committed == r.committed
            && o.r.term == m.term && o.r.role.Follower? && o.r.lead == m.from
  {
    var r0 := AppendStart(r, m);
    hide Step;
  }

  lemma RefusedAppend(r: Raft, m: Message)
    requires m.kind.MsgApp? && Heeds(r, m) && m.index >= r.commit && TermOf(r.view, m.index) != m.logTerm
    ensures var o := Step(r, m);
            && o.Done? && o.out == {AppendReply(r, m).(index := m.index, reject := true, rejectHint := Last(r))}
            && o.r.view == r.view && o.r.committed == r.committed
            && o.r.term == m.term && o.r.role.Follower? && o.r.lead == m.from
  {
    var r0 := AppendStart(r, m);
    hide Step;
  }

  /** On the log alone: the scan ends at k, and the entries from there on replace what follows. */
  lemma TakenIs(v: View, c: nat, index: nat, mc: nat, ents: seq<Entry>, k: nat)
    requires LogSane(v, c) && Follow(index, ents) && v.off <= index && index + k <= LastIndex(v) && k <= |ents|
    requires FindConflict(v, ents) == if k == |ents| then 0 else index + 1 + k
    ensures var o := MaybeAppend(v, c, index, TermOf(v, index), mc, ents);
            if k < |ents| && index + 1 + k <= c then o.LogPanic?
            else o == Appended(if k == |ents| then v else v.(ents := v.ents[..index + k - v.off] + ents[k..]),
                               Max(c, Min(mc, index + |ents|)))
  {
    hide FindConflict;
    assert MatchTerm(v, index, TermOf(v, index));
    if k < |ents| && index + 1 + k > c {
      ConflictReplaced(v, c, index, ents, k);
      hide Append, TermOf;
    }
  }

  lemma ConflictReplaced(v: View, c: nat, index: nat, ents: seq<Entry>, k: nat)
    requires LogSane(v, c) && Follow(index, ents) && v.off <= index && index + k <= LastIndex(v) && k < |ents| && index + 1 + k > c
    ensures var v' := v.(ents := v.ents[..index + k - v.off] + ents[k..]);
            Append(v, c, ents[k..]) == Appended(v', c) && LastIndex(v') == index + |ents|
  {
    assert ents[k..][0] == ents[k];
  }

  lemma AppendStepIs(r: Raft, m: Message)
    requires m.kind.MsgApp? && Heeds(r, m) && m.index >= r.commit && MatchTerm(r.view, m.index, m.logTerm)
    ensures var o := Step(r, m); var t := MaybeAppend(r.view, r.committed, m.index, m.logTerm, m.commit, m.entries);
            && !t.Rejected? && (o.Panic? <==> t.LogPanic?)
            && (o.Done? ==>
                  && o.r.view == t.view && o.r.committed == t.committed
                  && o.out == {AppendReply(r, m).(index := m.index + |m.entries|)}
                  && o.r.term == m.term && o.r.role.Follower? && o.r.lead == m.from)
  {
    AppendedOrNot(r.view, r.committed, m.index, m.logTerm, m.commit, m.entries);
    var r0 := AppendStart(r, m);
    hide Step, MaybeAppend, MatchTerm;
  }

  lemma AppendedOrNot(v: View, c: nat, index: nat, logTerm: nat, mc: nat, ents: seq<Entry>)
    requires MatchTerm(v, index, logTerm)
    ensures !MaybeAppend(v, c, index, logTerm, mc, ents).Rejected?
  {
    hide Append, FindConflict;
  }

  /** The log has what comes before the entries: they are taken from the first one that it lacks
      or contradicts, which is k, and nothing of the old log stays behind it. The answer names
      the last entry given. The node panics if and only if that would rewrite what is committed. */
  lemma TakenAppend(r: Raft, m: Message) returns (k: nat)
    requires m.kind.MsgApp? && Heeds(r, m) && Sane(r) && r.commit == r.committed && WellFormed(r, m)
    requires m.index >= r.commit && TermOf(r.view, m.index) == m.logTerm
    ensures ScanEnds(r.view, m.entries, k) && r.view.off <= m.index && m.index + k <= Last(r)
    ensures var o := Step(r, m);
            && (o.Panic? <==> k < |m.entries| && m.index + 1 + k <= r.committed)
            && (o.Done? ==>
                  && o.out == {AppendReply(r, m).(index := m.index + |m.entries|)}
                  && o.r.term == m.term && o.r.role.Follower? && o.r.lead == m.from
                  && o.r.committed == Max(r.committed, Min(m.commit, m.index + |m.entries|))
                  && o.r.view == if k == |m.entries| then r.view
                                 else r.view.(ents := r.view.ents[..m.index + k - r.view.off] + m.entries[k..]))
  {
    AppendStepIs(r, m);
    hide Step, MaybeAppend;
    k := FindConflictIs(r.view, m.index, m.entries);
    assert k > 0 ==> TermOf(r.view, m.entries[k - 1].index) == m.entries[k - 1].term;
    TakenIs(r.view, r.committed, m.index, m.commit, m.entries, k);
  }

  /** So after an accepted append the log has every given entry's term at its index, and the very
      entry unless it had one of that term before. */
  lemma TakenIsHeld(r: Raft, m: Message, j: nat)
    requires m.kind.MsgApp? && Heeds(r, m) && Sane(r) && r.commit == r.committed && WellFormed(r, m)
    requires m.index >= r.commit && TermOf(r.view, m.index) == m.logTerm && Step(r, m).Done? && j < |m.entries|
    ensures var v := Step(r, m).r.view; var e := m.entries[j];
            && TermOf(v, e.index) == e.term && FirstIndex(v) <= e.index <= LastIndex(v)
            && (TermOf(r.view, e.index) != e.term ==> v.ents[e.index - FirstIndex(v)] == e)
  {
    var k := TakenAppend(r, m);
    hide Step, LogSane, ScanEnds, TermOf;
    JoinHolds(r.view, Step(r, m).r.view, m.index, m.entries, k, j);
  }

  lemma JoinHolds(v: View, v': View, index: nat, ents: seq<Entry>, k: nat, j: nat)
    requires Follow(index, ents) && v.off <= index && index + k <= LastIndex(v) && ScanEnds(v, ents, k) && j < |ents|
    requires v' == if k == |ents| then v else v.(ents := v.ents[..index + k - v.off] + ents[k..])
    ensures var e := ents[j];
            && TermOf(v', e.index) == e.term && FirstIndex(v') <= e.index <= LastIndex(v')
            && (TermOf(v, e.index) != e.term ==> v'.ents[e.index - FirstIndex(v')] == e)
  {
    var p := index + j - v.off;
    if j < k {
      assert TermOf(v, ents[j].index) == ents[j].term;
      assert v'.ents[p] == v.ents[p];
    } else {
      assert v'.ents[p] == ents[k..][j - k] == ents[j];
    }
  }

  // ---------------------------------------------------------------- heartbeats

  lemma HeartbeatStart(r: Raft, m: Message) returns (r0: Raft)
    requires m.kind.MsgHeartbeat? && Heeds(r, m)
    ensures Heeding(r, m, r0) && Step(r, m) == Settled(HandleHeartbeat(r0, m))
  {
    r0 := (if m.term > r.term || r.role.Candidate? then BecomeFollower(r, m.term, m.from) else r).(lead := m.from);
    if m.term > r.term {
      assert CatchUp(r, m).(lead := m.from) == r0;
    }
    hide HandleHeartbeat;
  }

  lemma HeartbeatTaken(r: Raft, m: Message)
    requires m.kind.MsgHeartbeat? && Heeds(r, m)
    ensures var o := Step(r, m);
            && (o.Panic? <==> m.commit > r.committed && m.commit > Last(r))
            && (o.Done? ==>
                  && o.out == {Blank(MsgHeartbeatResp, m.from, r.id, m.term)}
                  && o.r.committed == Max(r.committed, m.commit) && o.r.view == r.view
                  && o.r.term == m.term && o.r.role.Follower? && o.r.lead == m.from)
  {
    var r0 := HeartbeatStart(r, m);
    hide Step;
  }

  /** A leader's tick: one heartbeat to every other member, with a commit index that the member
      is known to have, and every member is resumed. */
  lemma BeatExactly(r: Raft, m: Message)
    requires m.kind.MsgBeat? && m.term == 0 && r.role.Leader?
    ensures var o := Step(r, m);
            && o.Done? && o.r == r.(prs := o.r.prs, commit := r.committed) && o.r.prs.Keys == r.prs.Keys
            && (forall v | v in r.prs :: o.r.prs[v] == if v == r.id then r.prs[v] else r.prs[v].(paused := false))
            && (forall x :: x in o.out <==>
                  && x.to in r.prs && x.to != r.id
                  && x == Blank(MsgHeartbeat, x.to, r.id, r.term).(commit := Min(r.prs[x.to].matched, r.committed)))
  {
  }

  // ---------------------------------------------------------------- sending

  /** The entry at a position of the log. */
  function EntryOf(v: View, p: nat): Entry
    requires FirstIndex(v) <= p <= LastIndex(v)
  {
    v.ents[p - FirstIndex(v)]
  }

  /** Entries are what the log has from a position on: as many as fit, and at least one. */
  ghost predicate Portion(v: View, limit: Limit, next: Pos, ents: seq<Entry>) {
    && 1 <= |ents| <= LastIndex(v) + 1 - next && FirstIndex(v) <= next
    && (forall k | 0 <= k < |ents| :: ents[k] == EntryOf(v, next + k))
    && (|ents| > 1 ==> !Exceeds(TotalSize(ents), limit))
    && (|ents| < LastIndex(v) + 1 - next ==> Exceeds(TotalSize(ents + [EntryOf(v, next + |ents|)]), limit))
  }

  /** Message x brings to a peer what follows position next - 1, after the right position and
      term. */
  ghost predicate Brings(r: Raft, to: NodeId, next: Pos, x: Message) {
    && x == Blank(MsgApp, to, r.id, r.term)
              .(index := next - 1, logTerm := TermOf(r.view, next - 1), entries := x.entries, commit := r.committed)
    && if next > Last(r) then x.entries == [] else Portion(r.view, r.limit, next, x.entries)
  }

  lemma {:induction false} FittingExactly(ents: seq<Entry>, limit: Limit, n: nat)
    requires n <= |ents| && (n > 1 ==> !Exceeds(TotalSize(ents[..n]), limit))
    ensures var k := Fitting(ents, limit, n);
            && (k > 1 ==> !Exceeds(TotalSize(ents[..k]), limit))
            && (k < |ents| ==> k > 0 && Exceeds(TotalSize(ents[..k + 1]), limit))
    decreases |ents| - n
  {
    if !(n == |ents| || (n > 0 && Exceeds(TotalSize(ents[..n + 1]), limit))) {
      FittingExactly(ents, limit, n + 1);
    }
  }

  /** The peer's record says that it may be sent something, and the log still has it. */
  predicate Sendable(r: Raft, p: Progress) {
    !IsPaused(p) && (p.next > Last(r) || FirstIndex(r.view) <= p.next)
  }

  lemma LimitedPortion(v: View, limit: Limit, next: Pos)
    requires FirstIndex(v) <= next <= LastIndex(v)
    ensures Portion(v, limit, next, LimitSize(Slice(v, next, LastIndex(v) + 1), limit))
  {
    var all := Slice(v, next, LastIndex(v) + 1);
    FittingExactly(all, limit, 0);
    var n := Fitting(all, limit, 0);
    hide Fitting, TotalSize, Exceeds;
    var ents := LimitSize(all, limit);
    assert ents == all[..n] && |all| == LastIndex(v) + 1 - next;
    hide LimitSize;
    forall k | 0 <= k < |all| ensures all[k] == EntryOf(v, next + k) {
    }
    hide Slice, EntryOf;
    if n < |all| {
      assert all[..n + 1] == ents + [EntryOf(v, next + n)];
    }
  }

  lemma OutstandingBrings(r: Raft, to: NodeId, p: Progress)
    requires p.next > Last(r) || FirstIndex(r.view) <= p.next
    ensures Brings(r, to, p.next, AppMessage(r, to, p, Outstanding(r, p.next)))
  {
    if p.next <= Last(r) {
      LimitedPortion(r.view, r.limit, p.next);
      hide Portion;
    }
  }

  /** What a sending leaves in the record. */
  ghost predicate SentTo(p: Progress, x: Message, q: Progress) {
    q == if x.entries == [] then p
         else
           var last := x.entries[|x.entries| - 1].index;
           if p.state.Replicate? then p.(next := last + 1, ins := p.ins + [last]) else p.(paused := true)
  }

  lemma AppendToBrings(r: Raft, to: NodeId) returns (x: Message)
    requires to in r.prs && Sendable(r, r.prs[to])
    ensures AppendTo(r, to).Sent? && AppendTo(r, to).msgs == {x} && Brings(r, to, r.prs[to].next, x)
    ensures SentTo(r.prs[to], x, AppendTo(r, to).pr)
  {
    OutstandingBrings(r, to, r.prs[to]);
    x := AppMessage(r, to, r.prs[to], Outstanding(r, r.prs[to].next));
  }

  // ---------------------------------------------------------------- rejections

  lemma StaleRejection(r: Raft, m: Message)
    requires r.role.Leader? && m.kind.MsgAppResp? && m.reject && m.term == r.term && m.from in r.prs
    requires IsStale(r.prs[m.from], m.index)
    ensures Step(r, m) == Done(r.(commit := r.committed), {})
  {
  }

  /** Only the record of one peer differs. */
  ghost predicate OneRecord(r: Raft, v: NodeId, p: Progress, r': Raft) {
    r' == r.(prs := r'.prs, commit := r'.commit) && r'.prs == r.prs[v := p]
  }

  /** A rejection that counts, of a peer that does not wait for a snapshot: its record is put
      into Probe state at a lower position, and one message goes out that brings what is there.
      It probes strictly below the rejected index, unless that was 0 already. */
  lemma RejectionExactly(r: Raft, m: Message) returns (x: Message, n: Pos, q: Progress)
    requires r.role.Leader? && m.kind.MsgAppResp? && m.reject && m.term == r.term && m.from in r.prs
    requires var p := r.prs[m.from]; !IsStale(p, m.index) && !p.state.Snapshotting?
    requires r.view.off == 0
    ensures var p := r.prs[m.from];
            && (if p.state.Replicate? then n == p.matched + 1 else BacksOff(m.index, m.rejectHint, n))
            && Brings(r, m.from, n, x) && (m.index > 0 ==> x.index < m.index)
            && SentTo(if p.state.Replicate? then Fresh(p.matched, n, p.size) else p.(next := n, paused := false), x, q)
    ensures var o := Step(r, m); o.Done? && o.out == {x} && OneRecord(r, m.from, q, o.r) && o.r.commit == r.committed
  {
    hide Step, Brings, SentTo, BacksOff;
    var p := r.prs[m.from];
    BackOffExactly(p, m.index, m.rejectHint);
    RejectedStep(r, m);
    var p1 := LowerRecord(p, m.index, m.rejectHint);
    n := p1.next;
    var r1 := SetProgress(r, m.from, p1);
    x, q := SendBrings(r1, m.from);
    SameBrings(r, r1, m.from, n, x);
    BringsAt(r, m.from, n, x);
    LowerIs(p, m.index, m.rejectHint);
    assert r1.prs[m.from := q] == r.prs[m.from := q];
  }

  /** The record from which the next message is sent. */
  function LowerRecord(p: Progress, rejected: nat, last: nat): Progress {
    var q := MaybeDecrTo(p, rejected, last);
    if q.state.Replicate? then BecomeProbe(q) else q
  }

  lemma LowerIs(p: Progress, rejected: nat, last: nat)
    requires !IsStale(p, rejected) && !p.state.Snapshotting?
    ensures var q := LowerRecord(p, rejected, last);
            && !IsPaused(q) && (rejected > 0 ==> q.next <= rejected)
            && (if p.state.Replicate? then q == Fresh(p.matched, p.matched + 1, p.size)
                else q == p.(next := q.next, paused := false) && BacksOff(rejected, last, q.next))
  {
    BackOffExactly(p, rejected, last);
  }

  lemma BringsAt(r: Raft, to: NodeId, next: Pos, x: Message)
    requires Brings(r, to, next, x)
    ensures x.index == next - 1
  {
  }

  /** Sending to one peer that may be sent to. */
  lemma SendBrings(r: Raft, to: NodeId) returns (x: Message, q: Progress)
    requires to in r.prs && Sendable(r, r.prs[to])
    ensures Brings(r, to, r.prs[to].next, x) && SentTo(r.prs[to], x, q)
    ensures SendAppend(r, to) == Done(r.(prs := r.prs[to := q]), {x})
  {
    hide Brings, SentTo;
    x := AppendToBrings(r, to);
    q := AppendTo(r, to).pr;
  }

  lemma RejectedStep(r: Raft, m: Message)
    requires r.role.Leader? && m.kind.MsgAppResp? && m.reject && m.term == r.term && m.from in r.prs
    requires DecrApplies(r.prs[m.from], m.index)
    ensures Step(r, m) == Settled(SendAppend(SetProgress(r, m.from, LowerRecord(r.prs[m.from], m.index, m.rejectHint)), m.from))
  {
    hide SendAppend, MaybeDecrTo;
  }

  /** What is brought depends on the log, not on the records. */
  lemma SameBrings(r: Raft, r': Raft, to: NodeId, next: Pos, x: Message)
    requires r' == r.(prs := r'.prs, commit := r'.commit)
    ensures Brings(r', to, next, x) <==> Brings(r, to, next, x)
  {
  }

  // ---------------------------------------------------------------- answers to heartbeats

  /** An answer to a heartbeat frees the oldest place of a full window, and if the peer is not
      known to have everything, one message brings what comes next for it. */
  lemma HeartbeatAnswered(r: Raft, m: Message) returns (x: Message, q: Progress)
    requires r.role.Leader? && m.kind.MsgHeartbeatResp? && m.term == r.term && m.from in r.prs
    requires var p := r.prs[m.from]; p.size >= 1 && Rising(p.ins) && !p.state.Snapshotting? && !(p.state.Probe? && p.paused)
    requires r.prs[m.from].state.Replicate? ==> |r.prs[m.from].ins| <= r.prs[m.from].size
    requires r.prs[m.from].matched < Last(r) && r.view.off == 0
    ensures var p := r.prs[m.from];
            Brings(r, m.from, p.next, x)
            && SentTo(if p.state.Replicate? && |p.ins| == p.size then p.(ins := p.ins[1..]) else p, x, q)
    ensures var o := Step(r, m); o.Done? && o.out == {x} && OneRecord(r, m.from, q, o.r) && o.r.commit == r.committed
  {
    hide Step, Brings, SentTo;
    var p := r.prs[m.from];
    var p1 := if p.state.Replicate? && |p.ins| == p.size then p.(ins := p.ins[1..]) else p;
    if p.state.Replicate? && |p.ins| == p.size {
      ProgressSpec.FreeFirstOne(p.ins);
    }
    AnsweredStep(r, m, p1);
    var r1 := SetProgress(r, m.from, p1);
    x, q := SendBrings(r1, m.from);
    SameBrings(r, r1, m.from, p.next, x);
    assert r1.prs[m.from := q] == r.prs[m.from := q];
  }

  lemma AnsweredStep(r: Raft, m: Message, p1: Progress)
    requires r.role.Leader? && m.kind.MsgHeartbeatResp? && m.term == r.term && m.from in r.prs
    requires var p := r.prs[m.from];
             p.size >= 1 && p1 == if p.state.Replicate? && Full(p) then (if p.ins == [] then p else p.(ins := FreeTo(p.ins, p.ins[0]))) else p
    ensures var r1 := SetProgress(r, m.from, p1);
            Step(r, m) == Settled(if p1.matched < Last(r) then SendAppend(r1, m.from) else Done(r1, {}))
  {
    hide SendAppend, FreeTo;
  }

  // ---------------------------------------------------------------- committing

  /** A majority of the match indices reaches y, and the entry there is of the node's term. */
  ghost predicate Ripe(r: Raft, y: nat) {
    Majority(Reached(r.prs, y), r.prs.Keys) && TermOf(r.view, y) == r.term
  }

  /** Commit index c is right for node r, whose own was lower or the same: it is ripe or the old
      one, and nothing ripe lies above it. */
  ghost predicate CommitsTo(r: Raft, c: nat) {
    && r.committed <= c && (c == r.committed || Ripe(r, c))
    && forall y: nat {:trigger Ripe(r, y)} | Ripe(r, y) :: y <= c
  }

  /** Terms do not go down along the log and do not pass the node's own. */
  ghost predicate Ordered(r: Raft) {
    && (forall i, j | FirstIndex(r.view) <= i <= j <= Last(r) :: TermOf(r.view, i) <= TermOf(r.view, j))
    && (forall i | FirstIndex(r.view) <= i <= Last(r) :: TermOf(r.view, i) <= r.term)
  }

  lemma QuorumIs(prs: map<NodeId, Progress>, y: nat)
    requires prs != map[]
    ensures Majority(Reached(prs, y), prs.Keys) <==> y <= QuorumIndex(prs)
  {
    assert IsQuorumIndex(prs, QuorumIndex(prs));
    assert |prs.Keys| == |prs|;
  }

  lemma QuorumWithin(prs: map<NodeId, Progress>, last: nat)
    requires prs != map[] && forall v | v in prs :: prs[v].matched <= last
    ensures QuorumIndex(prs) <= last
  {
    var x := QuorumIndex(prs);
    QuorumIs(prs, x);
    var v :| v in Reached(prs, x);
  }

  /** Everything that a majority has reached and that is of the leader's term is committed, and
      nothing else. */
  lemma CommitExactly(r: Raft)
    requires r.prs != map[] && r.term > 0 && r.view.off == 0 && r.view.offTerm == 0 && Ordered(r)
    requires forall v | v in r.prs :: r.prs[v].matched <= Last(r)
    ensures var o := MaybeCommit(r);
            o.Done? && o.out == {} && o.r == r.(committed := o.r.committed) && CommitsTo(r, o.r.committed)
  {
    QuorumWithin(r.prs, Last(r));
    var x := QuorumIndex(r.prs);
    QuorumIs(r.prs, x);
    var c := MaybeCommit(r).r.committed;
    forall y: nat | Ripe(r, y) ensures y <= c {
      QuorumIs(r.prs, y);
      assert TermOf(r.view, y) <= TermOf(r.view, x) <= r.term;
    }
  }

  // ---------------------------------------------------------------- sending to all

  /** What goes out to one peer in a broadcast, and what that leaves in its record: nothing if
      it is paused, else one message that brings what comes next. */
  ghost predicate Served(r: Raft, v: NodeId, q: Progress, out: set<Message>)
    requires v in r.prs
  {
    if IsPaused(r.prs[v]) then q == r.prs[v] && forall x | x in out :: x.to != v
    else exists x :: x in out && ServedWith(r, v, q, out, x)
  }

  ghost predicate ServedWith(r: Raft, v: NodeId, q: Progress, out: set<Message>, x: Message)
    requires v in r.prs
  {
    Brings(r, v, r.prs[v].next, x) && SentTo(r.prs[v], x, q) && forall y | y in out && y.to == v :: y == x
  }

  /** Node r sends to all and becomes r'. */
  ghost predicate Broadcasts(r: Raft, r': Raft, out: set<Message>) {
    && r' == r.(prs := r'.prs, commit := r'.commit) && r'.prs.Keys == r.prs.Keys
    && (r.id in r.prs ==> r'.prs[r.id] == r.prs[r.id])
    && (forall v | v in r.prs && v != r.id :: Served(r, v, r'.prs[v], out))
    && (forall x | x in out :: x.to in r.prs && x.to != r.id)
  }

  lemma BcastBrings(r: Raft)
    requires r.view.off == 0
    ensures BcastAppend(r).Done? && Broadcasts(r, BcastAppend(r).r, BcastAppend(r).out)
  {
    hide Brings, SentTo, AppendTo;
    forall v | v in r.prs
      ensures AppendTo(r, v).Sent? && (forall x | x in AppendTo(r, v).msgs :: x.to == v)
    {
      EachSends(r, v);
    }
    var o := BcastAppend(r);
    forall v | v in r.prs && v != r.id ensures Served(r, v, o.r.prs[v], o.out) {
      if IsPaused(r.prs[v]) {
        PausedSilent(r, v);
      } else {
        var x := AppendToBrings(r, v);
        assert x in o.out;
        assert ServedWith(r, v, o.r.prs[v], o.out, x);
      }
    }
  }

  lemma EachSends(r: Raft, v: NodeId)
    requires v in r.prs && r.view.off == 0
    ensures AppendTo(r, v).Sent? && forall x | x in AppendTo(r, v).msgs :: x.to == v
  {
  }

  lemma PausedSilent(r: Raft, v: NodeId)
    requires v in r.prs && IsPaused(r.prs[v])
    ensures AppendTo(r, v) == Sent(r.prs[v], {})
  {
  }

  // ---------------------------------------------------------------- acknowledgements

  /** A leader as it is between steps of a run. */
  ghost predicate Leading(r: Raft) {
    && r.role.Leader? && r.term > 0 && r.id in r.prs && r.view.off == 0 && r.view.offTerm == 0 && Ordered(r)
    && (forall v | v in r.prs :: r.prs[v].matched <= Last(r) && r.prs[v].next <= Last(r) + 1)
  }

  /** The record of a peer that has acknowledged n, which is more than was known. */
  ghost predicate Credited(p: Progress, n: nat, q: Progress) {
    match p.state
    case Probe => q == Fresh(n, n + 1, p.size).(state := Replicate)
    case Replicate =>
      && q == p.(matched := n, next := Max(p.next, n + 1), paused := false, ins := q.ins)
      && (Rising(p.ins) ==> exists k :: 0 <= k <= |p.ins| && q.ins == p.ins[k..] && Split(p.ins, k, n))
    case Snapshotting =>
      if n >= p.pending then q == Fresh(n, n + 1, p.size)
      else q == p.(matched := n, next := Max(p.next, n + 1), paused := false)
  }

  predicate Split(ins: seq<nat>, k: nat, n: nat) {
    k <= |ins| && (forall i | 0 <= i < k :: ins[i] <= n) && (forall i | k <= i < |ins| :: ins[i] > n)
  }

  lemma AcknowledgedCredits(p: Progress, n: nat)
    requires p.matched < n
    ensures Credited(p, n, Acknowledged(p, n))
    ensures Acknowledged(p, n).matched == n
  {
    if p.state.Replicate? && Rising(p.ins) {
      FreeToExact(p.ins, n);
      var k :| 0 <= k <= |p.ins| && FreeTo(p.ins, n) == p.ins[k..]
               && (forall i | 0 <= i < k :: p.ins[i] <= n) && (forall i | k <= i < |p.ins| :: p.ins[i] > n);
      assert Split(p.ins, k, n);
    }
  }

  /** An acknowledgement of something known already: at most next rises. */
  lemma OldAcknowledgement(r: Raft, m: Message)
    requires r.role.Leader? && m.kind.MsgAppResp? && !m.reject && m.term == r.term && m.from in r.prs
    requires m.index <= r.prs[m.from].matched
    ensures var p := r.prs[m.from]; var o := Step(r, m);
            o.Done? && o.out == {} && OneRecord(r, m.from, p.(next := Max(p.next, m.index + 1)), o.r) && o.r.commit == r.committed
  {
  }

  /** An acknowledgement: the record is credited, and the commit index becomes what it should
      be. If that has risen, all peers are sent what comes next for them, with the new commit
      index; if not, the peer itself is, in case it had been paused. */
  lemma AcknowledgementExactly(r: Raft, m: Message) returns (q: Progress, r2: Raft)
    requires Leading(r) && m.kind.MsgAppResp? && !m.reject && m.term == r.term && m.from in r.prs
    requires r.prs[m.from].matched < m.index <= Last(r)
    ensures Credited(r.prs[m.from], m.index, q)
    ensures r2 == r.(prs := r.prs[m.from := q], committed := r2.committed) && CommitsTo(r.(prs := r.prs[m.from := q]), r2.committed)
    ensures Step(r, m).Done? && Step(r, m).r.commit == Step(r, m).r.committed == r2.committed
    ensures var o := Step(r, m);
            if r2.committed > r.committed then Broadcasts(r2, o.r, o.out)
            else if IsPaused(r.prs[m.from]) && !IsPaused(q) then
              exists x, q' :: o.out == {x} && Brings(r2, m.from, q.next, x) && SentTo(q, x, q') && OneRecord(r2, m.from, q', o.r)
            else o.out == {} && o.r == r2.(commit := r2.committed)
  {
    hide Step, Credited, CommitsTo, Broadcasts, Brings, SentTo, Ordered;
    AcknowledgedCredits(r.prs[m.from], m.index);
    q := Acknowledged(r.prs[m.from], m.index);
    var r1 := r.(prs := r.prs[m.from := q]);
    OrderedSame(r, r1);
    assert r.id in r1.prs;
    CommitExactly(r1);
    r2 := MaybeCommit(r1).r;
    RisesOnly(r1, r2.committed);
    AckStep(r, m, r2);
    if r2.committed > r.committed {
      BcastBrings(r2);
      SettledBroadcast(r2);
    } else if IsPaused(r.prs[m.from]) {
      if IsPaused(q) {
        PausedSilent(r2, m.from);
        assert r2.prs[m.from := q] == r2.prs;
      } else {
        var x, q' := SendBrings(r2, m.from);
      }
    }
  }

  lemma OrderedSame(r: Raft, r': Raft)
    requires Ordered(r) && r'.view == r.view && r'.term == r.term
    ensures Ordered(r')
  {
  }

  lemma RisesOnly(r: Raft, c: nat)
    requires CommitsTo(r, c)
    ensures r.committed <= c
  {
  }

  lemma SettledBroadcast(r: Raft)
    requires BcastAppend(r).Done? && Broadcasts(r, BcastAppend(r).r, BcastAppend(r).out)
    ensures var o := Settled(BcastAppend(r)); o.Done? && Broadcasts(r, o.r, o.out) && o.r.commit == o.r.committed == r.committed
  {
    hide Served;
  }

  lemma AckStep(r: Raft, m: Message, r2: Raft)
    requires r.role.Leader? && m.kind.MsgAppResp? && !m.reject && m.term == r.term && m.from in r.prs
    requires r.prs[m.from].matched < m.index
    requires MaybeCommit(r.(prs := r.prs[m.from := Acknowledged(r.prs[m.from], m.index)])) == Done(r2, {})
    ensures Step(r, m) == Settled(if r2.committed != r.committed then BcastAppend(r2)
                                  else if IsPaused(r.prs[m.from]) then SendAppend(r2, m.from)
                                  else Done(r2, {}))
  {
    hide BcastAppend, SendAppend, MaybeCommit, Acknowledged;
  }

  // ---------------------------------------------------------------- proposals

  /** The log with the given payloads put behind it, as entries of the node's term. */
  ghost predicate Extended(r: Raft, data: seq<Entry>, v: View) {
    && v == r.view.(ents := v.ents) && |v.ents| == |r.view.ents| + |data| && v.ents[..|r.view.ents|] == r.view.ents
    && forall k | 0 <= k < |data| :: v.ents[|r.view.ents| + k] == Entry(r.term, Last(r) + 1 + k, data[k].data)
  }

  /** Node r, which leads, has taken payloads into its log and its own record. */
  ghost predicate TakesIn(r: Raft, data: seq<Entry>, r1: Raft) {
    && r.id in r.prs && Extended(r, data, r1.view)
    && r1 == r.(view := r1.view, prs := r1.prs)
    && r1.prs == r.prs[r.id := r.prs[r.id].(matched := Last(r1), next := Max(r.prs[r.id].next, Last(r1) + 1), paused := false)]
  }

  lemma OrderedExtended(r: Raft, data: seq<Entry>, r1: Raft)
    requires Ordered(r) && Extended(r, data, r1.view) && r1.term == r.term && r.view.off == 0
    ensures Ordered(r1)
  {
    forall i | 1 <= i <= Last(r1) ensures TermOf(r1.view, i) == if i <= Last(r) then TermOf(r.view, i) else r.term {
      if i <= Last(r) {
        assert r1.view.ents[..|r.view.ents|][i - 1] == r.view.ents[i - 1];
      } else {
        var k := i - 1 - Last(r);
        assert r1.view.ents[|r.view.ents| + k] == Entry(r.term, Last(r) + 1 + k, data[k].data);
      }
    }
  }

  /** The node with the payloads in its log and in its own record. */
  function TakenIn(r: Raft, data: seq<Entry>): Raft
    requires r.id in r.prs
  {
    var v := r.view.(ents := r.view.ents + Stamp(r.term, Last(r), data));
    r.(view := v, prs := r.prs[r.id := MaybeUpdate(r.prs[r.id], LastIndex(v))])
  }

  lemma TakenInIs(r: Raft, data: seq<Entry>)
    requires r.id in r.prs && r.view.off == 0 && r.committed <= Last(r) && data != [] && r.prs[r.id].matched <= Last(r)
    ensures TakesIn(r, data, TakenIn(r, data)) && AppendEntry(r, data) == MaybeCommit(TakenIn(r, data))
  {
    assert r.view.ents[..Last(r)] == r.view.ents;
    assert Append(r.view, r.committed, Stamp(r.term, Last(r), data)) == Appended(TakenIn(r, data).view, r.committed);
    hide MaybeCommit;
  }

  /** Taking payloads in and committing what is then ripe. */
  lemma AppendsExactly(r: Raft, data: seq<Entry>) returns (r1: Raft, r2: Raft)
    requires r.term > 0 && r.id in r.prs && r.view.off == 0 && r.view.offTerm == 0 && Ordered(r) && r.committed <= Last(r)
    requires data != [] && forall v | v in r.prs :: r.prs[v].matched <= Last(r)
    ensures TakesIn(r, data, r1) && r2 == r1.(committed := r2.committed) && CommitsTo(r1, r2.committed)
    ensures AppendEntry(r, data) == Done(r2, {})
  {
    hide Ordered, CommitsTo, TakenIn, Extended;
    TakenInIs(r, data);
    r1 := TakenIn(r, data);
    hide AppendEntry, MaybeCommit;
    OrderedExtended(r, data, r1);
    TakesInBase(r, data, r1);
    CommitExactly(r1);
    r2 := MaybeCommit(r1).r;
  }

  /** A proposal to a leader: the payloads go behind its log, what is then ripe is committed,
      and all peers are sent what comes next for them. */
  lemma ProposalExactly(r: Raft, m: Message) returns (r1: Raft, r2: Raft)
    requires Leading(r) && m.kind.MsgProp? && m.term == 0 && m.entries != [] && r.committed <= Last(r)
    ensures TakesIn(r, m.entries, r1) && r2 == r1.(committed := r2.committed) && CommitsTo(r1, r2.committed)
    ensures var o := Step(r, m); o.Done? && Broadcasts(r2, o.r, o.out) && o.r.commit == o.r.committed == r2.committed
  {
    hide Ordered, CommitsTo, Broadcasts, TakesIn, Step;
    r1, r2 := AppendsExactly(r, m.entries);
    TakesInBase(r, m.entries, r1);
    BcastBrings(r2);
    SettledBroadcast(r2);
    ProposalStep(r, m, r2);
  }

  lemma TakesInBase(r: Raft, data: seq<Entry>, r1: Raft)
    requires TakesIn(r, data, r1)
    ensures r1.view.off == r.view.off && r1.view.offTerm == r.view.offTerm && Last(r1) == Last(r) + |data|
    ensures r1.prs.Keys == r.prs.Keys
  {
  }

  lemma ProposalStep(r: Raft, m: Message, r2: Raft)
    requires r.role.Leader? && m.kind.MsgProp? && m.term == 0 && m.entries != [] && r.id in r.prs
    requires AppendEntry(r, m.entries) == Done(r2, {}) && BcastAppend(r2).Done?
    ensures Step(r, m) == Settled(BcastAppend(r2))
  {
    hide AppendEntry, BcastAppend;
  }

  /** A node that does not lead passes a proposal on to the leader it knows, unchanged, or drops
      it; a candidate knows none. */
  lemma ProposalPassedOn(r: Raft, m: Message)
    requires m.kind.MsgProp? && m.term == 0 && !r.role.Leader?
    ensures Step(r, m) == Done(r.(commit := r.committed),
                               if r.role.Follower? && r.lead != NONE then {m.(to := r.lead, from := r.id)} else {})
  {
  }

  // ---------------------------------------------------------------- elections

  /** Node r has just won: it leads in its term with a fresh record of every peer, and its log
      has an empty entry of that term behind it. */
  ghost predicate TakesOffice(r: Raft, r1: Raft) {
    && r.id in r.prs && r1 == r.(role := Leader, lead := r.id, votes := map[], view := r1.view, prs := r1.prs)
    && Extended(r, [Entry(0, 0, Nil)], r1.view) && r1.prs.Keys == r.prs.Keys
    && forall v | v in r.prs :: r1.prs[v] == if v == r.id then Fresh(Last(r) + 1, Last(r) + 2, r.maxInflight)
                                             else Fresh(0, Last(r) + 1, r.maxInflight)
  }

  lemma TakesOfficeExactly(r: Raft) returns (r1: Raft, r2: Raft)
    requires r.role.Candidate? && r.term > 0 && r.id in r.prs && r.view.off == 0 && r.view.offTerm == 0 && Ordered(r)
    requires r.committed <= Last(r)
    ensures TakesOffice(r, r1) && r2 == r1.(committed := r2.committed) && CommitsTo(r1, r2.committed)
    ensures BecomeLeader(r) == Done(r2, {})
  {
    var r0 := Reset(r, r.term).(lead := r.id, role := Leader);
    OrderedSame(r, r0);
    hide Ordered, CommitsTo, TakesIn;
    r1, r2 := AppendsExactly(r0, [Entry(0, 0, Nil)]);
    TakesOfficeIs(r, r0, r1);
    hide AppendEntry;
  }

  lemma TakesOfficeIs(r: Raft, r0: Raft, r1: Raft)
    requires r.id in r.prs && r0 == Reset(r, r.term).(lead := r.id, role := Leader) && TakesIn(r0, [Entry(0, 0, Nil)], r1)
    ensures TakesOffice(r, r1)
  {
  }

  /** The order to campaign: a new term, a vote for itself, and, unless it is alone, a request
      to every other member that names the end of its log. */
  lemma CampaignExactly(r: Raft, m: Message) returns (r1: Raft)
    requires m.kind.MsgHup? && !r.role.Leader? && r.id in r.prs
    requires r.view.off == 0 && r.view.offTerm == 0 && Ordered(r) && r.committed <= Last(r)
    ensures Stands(r, r1) && Step(r, m).Done? && Step(r, m).r.commit == Step(r, m).r.committed
    ensures var o := Step(r, m);
            if |r.prs| == 1 then o.out == {} && exists r2 :: TakesOffice(r1, r2) && o.r == r2.(committed := o.r.committed, commit := o.r.commit) && CommitsTo(r2, o.r.committed)
            else o.r == r1.(commit := r.committed) && AsksAll(r, o.out)
  {
    r1 := Reset(r, r.term + 1).(vote := r.id, role := Candidate, votes := map[r.id := true]);
    assert Granted(r1) == {r.id};
    OrderedLater(r, r1);
    SamePeers(r, r1);
    hide Ordered, CommitsTo, TakesOffice, BecomeLeader, AsksAll, Step;
    CampaignStep(r, m, r1);
    if |r.prs| == 1 {
      var r2, r3 := TakesOfficeExactly(r1);
    } else {
      AsksAllIs(r, r1);
    }
  }

  /** Node r stands for election in the next term. */
  ghost predicate Stands(r: Raft, r1: Raft) {
    && r1 == r.(term := r.term + 1, vote := r.id, lead := NONE, role := Candidate, votes := map[r.id := true], prs := r1.prs)
    && r1.prs.Keys == r.prs.Keys
    && forall v | v in r.prs :: r1.prs[v] == Fresh(if v == r.id then Last(r) else 0, Last(r) + 1, r.maxInflight)
  }

  /** It asks every other member, and nobody else, and names the end of its log. */
  ghost predicate AsksAll(r: Raft, out: set<Message>) {
    forall x :: x in out <==>
      && x.to in r.prs && x.to != r.id
      && x == Blank(MsgVote, x.to, r.id, r.term + 1).(index := Last(r), logTerm := TermOf(r.view, Last(r)))
  }

  lemma AsksAllIs(r: Raft, r1: Raft)
    requires Stands(r, r1)
    ensures AsksAll(r, set to | to in r1.prs && to != r.id :: VoteMessage(r1, to))
  {
    forall to | to in r.prs
      ensures VoteMessage(r1, to) == Blank(MsgVote, to, r.id, r.term + 1).(index := Last(r), logTerm := TermOf(r.view, Last(r))) {
    }
  }

  lemma SamePeers(r: Raft, r1: Raft)
    requires r.id in r.prs && r1.prs.Keys == r.prs.Keys
    ensures |r1.prs| == |r.prs| >= 1
  {
    assert |r1.prs| == |r1.prs.Keys| && |r.prs| == |r.prs.Keys|;
    assert r.prs.Keys >= {r.id};
    SubsetSize({r.id}, r.prs.Keys);
  }

  lemma OrderedLater(r: Raft, r': Raft)
    requires Ordered(r) && r'.view == r.view && r'.term >= r.term
    ensures Ordered(r')
  {
  }

  lemma CampaignStep(r: Raft, m: Message, r1: Raft)
    requires m.kind.MsgHup? && !r.role.Leader? && r1 == Reset(r, r.term + 1).(vote := r.id, role := Candidate, votes := map[r.id := true])
    requires Granted(r1) == {r.id}
    ensures Step(r, m) == Settled(if |r1.prs| / 2 + 1 == 1 then BecomeLeader(r1)
                                  else Done(r1, set to | to in r1.prs && to != r.id :: VoteMessage(r1, to)))
  {
    hide BecomeLeader;
    var r0 := Reset(r, r.term + 1).(vote := r.id, role := Candidate);
    assert Polled(r0, r.id, true) == r1;
    assert |Granted(r1)| == 1;
  }

  /** The votes after one more answer: the first of each sender counts. */
  function Counted(r: Raft, m: Message): map<NodeId, bool> {
    if m.from in r.votes then r.votes else r.votes[m.from := !m.reject]
  }

  ghost function Ayes(votes: map<NodeId, bool>): set<NodeId> {
    set v | v in votes && votes[v]
  }

  ghost function Noes(votes: map<NodeId, bool>): set<NodeId> {
    set v | v in votes && !votes[v]
  }

  /** Neither a majority for the candidate nor one against it. */
  ghost predicate Undecided(r: Raft) {
    !Majority(Ayes(r.votes), r.prs.Keys) && !Majority(Noes(r.votes), r.prs.Keys)
  }

  lemma OneMoreVote(r: Raft, m: Message)
    ensures var votes := Counted(r, m);
            && |Ayes(votes)| <= |Ayes(r.votes)| + 1 && |Noes(votes)| <= |Noes(r.votes)| + 1
            && |votes| == |Ayes(votes)| + |Noes(votes)|
  {
    var votes := Counted(r, m);
    assert Ayes(votes) <= Ayes(r.votes) + {m.from} && Noes(votes) <= Noes(r.votes) + {m.from};
    SubsetSize(Ayes(votes), Ayes(r.votes) + {m.from});
    SubsetSize(Noes(votes), Noes(r.votes) + {m.from});
    assert votes.Keys == Ayes(votes) + Noes(votes);
    assert |votes| == |votes.Keys|;
  }

  lemma VoteRespStep(r: Raft, m: Message)
    requires r.role.Candidate? && m.kind.MsgVoteResp? && m.term == r.term && Undecided(r)
    ensures var votes := Counted(r, m); var r0 := r.(votes := votes);
            Step(r, m) == Settled(if Majority(Ayes(votes), r.prs.Keys) then Then(BecomeLeader(r0), BcastAppend)
                                  else if Majority(Noes(votes), r.prs.Keys) then Done(BecomeFollower(r0, r.term, NONE), {})
                                  else Done(r0, {}))
  {
    var votes := Counted(r, m);
    OneMoreVote(r, m);
    assert Polled(r, m.from, !m.reject) == r.(votes := votes);
    assert Granted(r.(votes := votes)) == Ayes(votes);
    assert |r.prs| == |r.prs.Keys|;
    hide BecomeLeader, BcastAppend, Counted;
  }

  /** A candidate that has won sends to all. */
  lemma VotedIn(r: Raft) returns (r1: Raft, r2: Raft)
    requires r.role.Candidate? && r.term > 0 && r.id in r.prs && r.view.off == 0 && r.view.offTerm == 0 && Ordered(r)
    requires r.committed <= Last(r)
    ensures TakesOffice(r, r1) && r2 == r1.(committed := r2.committed) && CommitsTo(r1, r2.committed)
    ensures var o := Settled(Then(BecomeLeader(r), BcastAppend));
            o.Done? && Broadcasts(r2, o.r, o.out) && o.r.commit == o.r.committed
  {
    hide Ordered, CommitsTo, Broadcasts, BecomeLeader, BcastAppend, TakesOffice;
    r1, r2 := TakesOfficeExactly(r);
    TakesOfficeBase(r, r1);
    BcastBrings(r2);
    SettledBroadcast(r2);
    assert {} + BcastAppend(r2).out == BcastAppend(r2).out;
  }

  lemma TakesOfficeBase(r: Raft, r1: Raft)
    requires TakesOffice(r, r1)
    ensures r1.view.off == r.view.off && r1.view.offTerm == r.view.offTerm && Last(r1) == Last(r) + 1 && r1.role.Leader?
    ensures r1.term == r.term && r1.id == r.id && r1.prs.Keys == r.prs.Keys
    ensures forall votes :: TakesOffice(r.(votes := votes), r1)
  {
  }

  /** An answer to a candidate: it leads if and only if it now has a majority of votes, and then
      sends to all; it gives up if and only if a majority refuses; else it counts on. */
  lemma TallyExactly(r: Raft, m: Message) returns (r1: Raft, r2: Raft)
    requires r.role.Candidate? && m.kind.MsgVoteResp? && m.term == r.term && Undecided(r) && r.term > 0
    requires r.id in r.prs && r.view.off == 0 && r.view.offTerm == 0 && Ordered(r) && r.committed <= Last(r)
    ensures Step(r, m).Done? && Step(r, m).r.commit == Step(r, m).r.committed
    ensures var votes := Counted(r, m); var o := Step(r, m);
            if Majority(Ayes(votes), r.prs.Keys) then
              TakesOffice(r, r1) && r2 == r1.(committed := r2.committed) && CommitsTo(r1, r2.committed) && Broadcasts(r2, o.r, o.out)
            else if Majority(Noes(votes), r.prs.Keys) then o.out == {} && StepsBack(r, o.r)
            else o == Done(r.(votes := votes, commit := r.committed), {})
  {
    var votes := Counted(r, m);
    var r0 := r.(votes := votes);
    VoteRespStep(r, m);
    OrderedSame(r, r0);
    hide Ordered, Undecided, CommitsTo, Broadcasts, Step, BecomeLeader, BcastAppend, Counted, Ayes, Noes, Majority, TakesOffice, Then;
    r1, r2 := r, r;
    if Majority(Ayes(votes), r.prs.Keys) {
      r1, r2 := VotedIn(r0);
      TakesOfficeBase(r0, r1);
      assert r0.(votes := r.votes) == r;
    } else if Majority(Noes(votes), r.prs.Keys) {
      assert StepsBack(r, BecomeFollower(r0, r.term, NONE).(commit := r.committed));
    }
  }

  /** The candidate follows nobody, in the same term and with the same vote and log. */
  ghost predicate StepsBack(r: Raft, r': Raft) {
    && r' == r.(role := Follower, lead := NONE, votes := map[], prs := r'.prs, commit := r.committed)
    && r'.prs.Keys == r.prs.Keys
  }

  // ---------------------------------------------------------------- reports about a peer

  /** A peer that is unreachable is probed again from behind its match index. */
  lemma UnreachableExactly(r: Raft, m: Message)
    requires r.role.Leader? && m.kind.MsgUnreachable? && m.term == 0 && m.from in r.prs
    ensures var p := r.prs[m.from]; var o := Step(r, m);
            && o.Done? && o.out == {} && o.r.commit == r.committed
            && OneRecord(r, m.from, if p.state.Replicate? then Fresh(p.matched, p.matched + 1, p.size) else p, o.r)
  {
  }

  /** After a snapshot the peer is probed, once it says something: from behind the snapshot if
      it has arrived, else from behind its match index. */
  lemma SnapStatusExactly(r: Raft, m: Message)
    requires r.role.Leader? && m.kind.MsgSnapStatus? && m.term == 0 && m.from in r.prs
    ensures var p := r.prs[m.from]; var o := Step(r, m);
            && o.Done? && o.out == {} && o.r.commit == r.committed
            && OneRecord(r, m.from,
                         if !p.state.Snapshotting? then p
                         else Fresh(p.matched, Max(p.matched, if m.reject then 0 else p.pending) + 1, p.size).(paused := true),
                         o.r)
  {
  }

  // ---------------------------------------------------------------- snapshots

  /** The peer needs entries that the leader no longer has, and there is a snapshot. */
  predicate NeedsSnapshot(r: Raft, p: Progress) {
    !IsPaused(p) && p.next <= r.view.off && r.snap.index > 0
  }

  /** It is sent the snapshot, and nothing more until it has been heard from. */
  lemma SnapshotSent(r: Raft, to: NodeId)
    requires to in r.prs && NeedsSnapshot(r, r.prs[to])
    ensures SendAppend(r, to) == Done(r.(prs := r.prs[to := Fresh(r.prs[to].matched, r.prs[to].next, r.prs[to].size)
                                                             .(state := Snapshotting, pending := r.snap.index)]),
                                      {Blank(MsgSnap, to, r.id, r.term).(snapshot := r.snap)})
  {
  }

  /** Every member of the snapshot, and nobody else, has a fresh record. */
  ghost predicate MembersOf(r: Raft, s: Snapshot, prs: map<NodeId, Progress>) {
    && prs.Keys == s.nodes
    && forall v | v in prs :: prs[v] == Fresh(if v == r.id then s.index else 0, s.index + 1, r.maxInflight)
  }

  /** A snapshot: one that tells nothing new is answered with the commit index; one that the log
      already has raises the commit index to it; any other replaces log and members. Exactly
      one answer goes out, which names how far the node then is. */
  lemma SnapshotTaken(r: Raft, m: Message)
    requires m.kind.MsgSnap? && Heeds(r, m) && (m.snapshot.index > Last(r) ==> m.snapshot.term > 0)
    ensures var s := m.snapshot; var o := Step(r, m);
            && o.Done? && o.r.term == m.term && o.r.role.Follower?
            && o.r.committed == Max(r.committed, s.index)
            && o.out == {AppendReply(r, m).(index := Max(r.committed, s.index))}
            && if s.index <= r.committed || TermOf(r.view, s.index) == s.term then o.r.view == r.view && o.r.prs.Keys == r.prs.Keys
               else o.r.view == View(s.index, s.term, []) && MembersOf(r, s, o.r.prs) && o.r.snap == s && o.r.pending
  {
    var r0 := SnapshotStart(r, m);
    hide Step;
  }

  lemma SnapshotStart(r: Raft, m: Message) returns (r0: Raft)
    requires m.kind.MsgSnap? && Heeds(r, m)
    ensures r0 == r.(term := m.term, vote := r0.vote, role := Follower, lead := r0.lead, votes := r0.votes, prs := r0.prs)
    ensures r0.prs.Keys == r.prs.Keys && Step(r, m) == Settled(HandleSnapshot(r0, m))
  {
    r0 := if m.term > r.term || r.role.Candidate? then BecomeFollower(r, m.term, m.from) else r;
    hide HandleSnapshot;
  }

  /** The leader hears that the snapshot has arrived: it probes from right behind it. */
  lemma SnapshotArrived(r: Raft, m: Message)
    requires r.role.Leader? && m.kind.MsgAppResp? && !m.reject && m.term == r.term && m.from in r.prs && Step(r, m).Done?
    requires var p := r.prs[m.from]; p.state.Snapshotting? && p.matched < m.index && p.pending <= m.index && p.next <= m.index + 1
    requires m.from != r.id && r.view.off <= m.index
    ensures m.from in Step(r, m).r.prs
    ensures var q := Step(r, m).r.prs[m.from]; q.matched == m.index && q.next == m.index + 1 && q.state.Probe?
  {
    var p := r.prs[m.from];
    var r1 := r.(prs := r.prs[m.from := Fresh(m.index, m.index + 1, p.size)]);
    assert Acknowledged(p, m.index) == Fresh(m.index, m.index + 1, p.size);
    ArrivedStep(r, m, r1);
    hide Step;
    assert MaybeCommit(r1).Done?;
    KeepsRecord(MaybeCommit(r1).r, m.from);
  }

  lemma ArrivedStep(r: Raft, m: Message, r1: Raft)
    requires r.role.Leader? && m.kind.MsgAppResp? && !m.reject && m.term == r.term && m.from in r.prs
    requires r.prs[m.from].matched < m.index && r1 == r.(prs := r.prs[m.from := Acknowledged(r.prs[m.from], m.index)])
    ensures Step(r, m) == Settled(match MaybeCommit(r1)
                                  case Panic => Panic
                                  case Done(r2, _) =>
                                    if r2.committed != r.committed then BcastAppend(r2)
                                    else if IsPaused(r.prs[m.from]) then SendAppend(r2, m.from)
                                    else Done(r2, {}))
  {
    hide MaybeCommit, BcastAppend, SendAppend, Acknowledged;
  }

  lemma KeepsRecord(r: Raft, v: NodeId)
    requires v in r.prs && r.prs[v].state.Probe? && v != r.id && r.prs[v].next > r.view.off
    ensures BcastAppend(r).Done? ==> v in BcastAppend(r).r.prs && BcastAppend(r).r.prs[v].(paused := false) == r.prs[v].(paused := false)
    ensures SendAppend(r, v).Done? ==> v in SendAppend(r, v).r.prs && SendAppend(r, v).r.prs[v].(paused := false) == r.prs[v].(paused := false)
  {
  }
}
