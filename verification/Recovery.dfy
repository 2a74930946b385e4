/** A group of nodes is never stuck. From every state of every run, any majority can on its own
    elect a leader and commit whatever it is given: whatever has been lost, repeated or left
    behind, whatever the flow-control records have come to, and whoever stays silent. */
module Recovery {
  import opened Types
  import opened LogView
  import opened ProgressSpec
  import opened NodeSpec
  import opened Quorums
  import opened ProtocolLogs
  import opened Protocol
  import opened LogRefinement
  import opened Refinement
  import opened StepRefinement
  import opened StepFacts
  import opened Handlers
  import opened Cluster
  import opened ClusterSafety
  import opened ClusterProgress
  import opened CommitRule

  // ---------------------------------------------------------------- going on

  ghost predicate Good(c: Group, n: NodeId)
    requires n in c.nodes
  {
    Keen(c.nodes[n]) && NodeFine(c.nodes[n])
  }

  /** What is known of every state of every run. */
  ghost predicate Live(c: Group) {
    (exists s :: Represents(s, c)) && forall n {:trigger Good(c, n)} | n in c.nodes :: Good(c, n)
  }

  lemma RunsAreLive(u: Run, i: nat)
    requires IsRun(u) && i < |u.states|
    ensures Live(u.states[i])
  {
    hide IsRun, Represents, Keen, NodeFine;
    var s := RunTo(u, i);
    forall n | n in u.states[i].nodes ensures Good(u.states[i], n) {
      AlwaysKeen(u, i, n);
      AlwaysFine(u, i, n);
    }
  }

  /** The events are not restarts, and happen at the given nodes only. */
  predicate Quiet(e: Event, q: set<NodeId>) {
    e.n in q && !e.Restart?
  }

  /** From c to c' in k events at the nodes of q. */
  ghost predicate Gets(c: Group, c': Group, q: set<NodeId>, k: nat)
    decreases k
  {
    if k == 0 then c' == c
    else exists c1, e :: Gets(c, c1, q, k - 1) && Quiet(e, q) && Next(c1, e, c')
  }

  ghost predicate Goes(c: Group, c': Group, q: set<NodeId>) {
    exists k: nat :: Gets(c, c', q, k)
  }

  lemma GoesNowhere(c: Group, q: set<NodeId>)
    ensures Goes(c, c, q)
  {
    assert Gets(c, c, q, 0);
  }

  /** One more event. */
  lemma Fire(c0: Group, c: Group, e: Event, q: set<NodeId>) returns (c': Group)
    requires Live(c) && Goes(c0, c, q) && Enabled(c, e) && Quiet(e, q)
    ensures Live(c') && Goes(c0, c', q) && Next(c, e, c')
  {
    hide Represents, Enabled, After, Keen, NodeFine, Good;
    var s :| Represents(s, c);
    assert Good(c, e.n) by {
      Has(c, e);
    }
    var s' := NextRepresented(s, c, e);
    var o := After(c, e);
    c' := Group(c.nodes[e.n := o.r], c.net + o.out);
    StillGood(s, c, e);
    forall n | n in c'.nodes ensures Good(c', n) {
      if n != e.n {
        assert Good(c, n);
        SameGood(c, c', n);
      } else {
        IsGood(c', n);
      }
    }
    var k: nat :| Gets(c0, c, q, k);
    assert Next(c, e, c');
    GetsOneMore(c0, c, e, c', q, k);
  }

  lemma GetsOneMore(c0: Group, c: Group, e: Event, c': Group, q: set<NodeId>, k: nat)
    requires Gets(c0, c, q, k) && Quiet(e, q) && Next(c, e, c')
    ensures Gets(c0, c', q, k + 1)
  {
    hide Next, Quiet;
    assert Gets(c0, c, q, k + 1 - 1);
  }

  lemma Has(c: Group, e: Event)
    requires Enabled(c, e)
    ensures e.n in c.nodes
  {
  }

  lemma SameGood(c: Group, c': Group, n: NodeId)
    requires n in c.nodes && Good(c, n) && n in c'.nodes && c'.nodes[n] == c.nodes[n]
    ensures Good(c', n)
  {
  }

  lemma IsGood(c: Group, n: NodeId)
    requires n in c.nodes && Keen(c.nodes[n]) && NodeFine(c.nodes[n])
    ensures Good(c, n)
  {
  }

  lemma StillGood(s: State, c: Group, e: Event)
    requires Represents(s, c) && Enabled(c, e) && After(c, e).Done? && e.n in c.nodes && Good(c, e.n)
    ensures Keen(After(c, e).r) && NodeFine(After(c, e).r)
  {
    hide Represents, Enabled, After, Keen, NodeFine;
    EventKeen(s, c, e);
    EventFine(s, c, e);
  }

  // ---------------------------------------------------------------- what is known of a node

  lemma NodeKnown(c: Group, n: NodeId)
    requires Live(c) && n in c.nodes
    ensures var r := c.nodes[n];
            && Firm(r) && Keen(r) && NodeFine(r) && r.id == n && r.prs.Keys == c.nodes.Keys
            && (forall v | v in r.prs :: r.prs[v].size >= 1)
  {
    hide Represents, Firm, Keen, NodeFine;
    var s :| Represents(s, c);
    FirmInRun(s, c, n);
    NodeIsHere(s, c, n);
    assert Good(c, n);
    NamesAgree(s, c);
  }

  lemma NamesAgree(s: State, c: Group)
    requires Represents(s, c)
    ensures s.h.peers == c.nodes.Keys && NONE !in c.nodes
  {
    hide Inv;
    assert HistoryOK(s.h) by {
      InvHistory(s);
    }
  }

  lemma InvHistory(s: State)
    requires Inv(s)
    ensures HistoryOK(s.h) && NONE !in s.h.peers
  {
  }

  /** A peer in the leader's term has the leader's log through the match index. */
  lemma PeerMatches(c: Group, n: NodeId, f: NodeId)
    requires Live(c) && n in c.nodes && f in c.nodes && c.nodes[n].role.Leader? && c.nodes[f].term == c.nodes[n].term
    ensures f in c.nodes[n].prs
    ensures Agree(c.nodes[n].view.ents, c.nodes[f].view.ents, c.nodes[n].prs[f].matched)
  {
    NodeKnown(c, n);
    hide Represents, Good;
    var s :| Represents(s, c);
    ExtendsSelf(s.h);
    MatchHolds(s, s, c, c, n, f);
  }

  lemma ExtendsSelf(h: History)
    ensures Extends(h, h)
  {
  }

  /** What a peer has acknowledged in the leader's term lies within the leader's log. */
  lemma AckKnown(c: Group, n: NodeId, m: Message)
    requires Live(c) && n in c.nodes && m in c.net && c.nodes[n].role.Leader?
    requires m.kind.MsgAppResp? && !m.reject && m.term == c.nodes[n].term
    ensures m.index <= Last(c.nodes[n])
  {
    hide Represents, Good;
    var s :| Represents(s, c);
    SentFits(s, c, n, m);
  }

  lemma LogReal(c: Group, n: NodeId)
    requires Live(c) && n in c.nodes
    ensures forall k | 0 <= k < |c.nodes[n].view.ents| :: c.nodes[n].view.ents[k].index == k + 1 && c.nodes[n].view.ents[k].term >= 1
  {
    hide Represents, Good;
    var s :| Represents(s, c);
    NodeLog(s, c, n);
    var l := c.nodes[n].view.ents;
    forall k | 0 <= k < |l| ensures l[k].index == k + 1 && l[k].term >= 1 {
      assert EntryOK(s.h.logs, l, c.nodes[n].term, k);
    }
  }

  lemma OneLeader(c: Group, n: NodeId, f: NodeId)
    requires Live(c) && n in c.nodes && f in c.nodes && f != n && c.nodes[n].role.Leader? && c.nodes[f].term == c.nodes[n].term
    ensures !c.nodes[f].role.Leader?
  {
    hide Represents, Good;
    var s :| Represents(s, c);
    ExtendsSelf(s.h);
    if c.nodes[f].role.Leader? {
      SameLeader(s, s, c, c, n, f);
    }
  }

  // ---------------------------------------------------------------- one round with one peer

  /** The node leads on in the same term with the same log, and knows no less of its peers. */
  ghost predicate LeadsOn(r: Raft, r': Raft) {
    && r.role.Leader? && r'.role.Leader? && r'.term == r.term && r'.view == r.view && r'.id == r.id
    && r.committed <= r'.committed && r'.prs.Keys == r.prs.Keys
    && forall v | v in r.prs :: r.prs[v].matched <= r'.prs[v].matched
  }

  lemma LeadsOnTwice(r: Raft, r1: Raft, r2: Raft)
    requires LeadsOn(r, r1) && LeadsOn(r1, r2)
    ensures LeadsOn(r, r2)
  {
  }

  /** One node has moved, and some messages were sent. */
  ghost predicate Moves(c: Group, n: NodeId, r: Raft, c': Group) {
    n in c.nodes && c'.nodes == c.nodes[n := r] && c.net <= c'.net
  }

  lemma NextMoves(c: Group, e: Event, c': Group)
    requires Next(c, e, c')
    ensures After(c, e).Done? && Moves(c, e.n, After(c, e).r, c') && After(c, e).out <= c'.net
  {
    hide After;
  }

  /** A node takes a message from within. */
  lemma FireLocal(c0: Group, c: Group, n: NodeId, m: Message, q: set<NodeId>) returns (c': Group)
    requires Live(c) && Goes(c0, c, q) && n in q && n in c.nodes && FromWithin(m) && !Trips(c.nodes[n], m)
    ensures Live(c') && Goes(c0, c', q)
    ensures Step(c.nodes[n], m).Done? && Moves(c, n, Step(c.nodes[n], m).r, c') && Step(c.nodes[n], m).out <= c'.net
  {
    hide Live, Goes, Step, FromWithin, Trips;
    c' := Fire(c0, c, Local(n, m), q);
    NextMoves(c, Local(n, m), c');
  }

  /** A node takes a message that was sent to it. */
  lemma FireNet(c0: Group, c: Group, n: NodeId, m: Message, q: set<NodeId>) returns (c': Group)
    requires Live(c) && Goes(c0, c, q) && n in q && n in c.nodes && m in c.net && m.to == n && !Trips(c.nodes[n], m)
    ensures Live(c') && Goes(c0, c', q)
    ensures Step(c.nodes[n], m).Done? && Moves(c, n, Step(c.nodes[n], m).r, c') && Step(c.nodes[n], m).out <= c'.net
  {
    hide Live, Goes, Step, Trips;
    c' := Fire(c0, c, Deliver(n, m), q);
    NextMoves(c, Deliver(n, m), c');
  }

  lemma BeatLeads(r: Raft, b: Message, f: NodeId)
    requires b.kind.MsgBeat? && b.term == 0 && r.role.Leader? && f in r.prs && f != r.id
    ensures var o := Step(r, b);
            && o.Done? && LeadsOn(r, o.r) && f in o.r.prs && o.r.prs[f] == r.prs[f].(paused := false) && o.r.committed == r.committed
            && Blank(MsgHeartbeat, f, r.id, r.term).(commit := Min(r.prs[f].matched, r.committed)) in o.out
  {
    hide Step;
    BeatExactly(r, b);
  }

  /** The leader's tick. */
  lemma Ticks(c0: Group, c: Group, n: NodeId, f: NodeId, q: set<NodeId>) returns (c': Group, r: Raft, m: Message)
    requires Live(c) && Goes(c0, c, q) && n in q && n in c.nodes && f in c.nodes && f != n && c.nodes[n].role.Leader?
    ensures Live(c') && Goes(c0, c', q) && Moves(c, n, r, c') && LeadsOn(c.nodes[n], r) && m in c'.net
    ensures f in c.nodes[n].prs && f in r.prs && r.prs[f] == c.nodes[n].prs[f].(paused := false) && r.committed == c.nodes[n].committed
    ensures m == Blank(MsgHeartbeat, f, n, r.term).(commit := Min(r.prs[f].matched, r.committed))
  {
    NodeKnown(c, n);
    hide Live, Goes, Firm, Keen, NodeFine, Step, LeadsOn, Moves;
    var b := Blank(MsgBeat, 0, 0, 0);
    c' := FireLocal(c0, c, n, b, q);
    BeatLeads(c.nodes[n], b, f);
    SameTerm(c.nodes[n], Step(c.nodes[n], b).r);
    r := Step(c.nodes[n], b).r;
    m := Blank(MsgHeartbeat, f, n, r.term).(commit := Min(r.prs[f].matched, r.committed));
  }

  lemma SameTerm(r: Raft, r': Raft)
    requires LeadsOn(r, r')
    ensures r'.term == r.term && r'.id == r.id && r'.role.Leader? && r'.view == r.view && r'.prs.Keys == r.prs.Keys
  {
  }

  /** A peer that is not ahead of the leader hears a heartbeat. */
  lemma Hears(c0: Group, c: Group, n: NodeId, f: NodeId, q: set<NodeId>, m: Message) returns (c': Group, y: Raft, a: Message)
    requires Live(c) && Goes(c0, c, q) && f in q && n in c.nodes && f in c.nodes && f != n && c.nodes[n].role.Leader?
    requires c.nodes[f].term <= c.nodes[n].term && m in c.net && m.kind.MsgHeartbeat? && m.to == f && m.from == n && m.term == c.nodes[n].term
    ensures Live(c') && Goes(c0, c', q) && Moves(c, f, y, c') && a in c'.net && a == Blank(MsgHeartbeatResp, n, f, m.term)
    ensures y.term == m.term && y.role.Follower? && y.view == c.nodes[f].view && y.committed == Max(c.nodes[f].committed, m.commit)
  {
    NodeKnown(c, f);
    if c.nodes[f].term == c.nodes[n].term {
      OneLeader(c, n, f);
    }
    hide Live, Goes, Firm, Keen, NodeFine, Step;
    c' := FireNet(c0, c, f, m, q);
    HeartbeatTaken(c.nodes[f], m);
    y := Step(c.nodes[f], m).r;
    a := Blank(MsgHeartbeatResp, n, f, m.term);
  }

  lemma AnswerLeads(r: Raft, a: Message) returns (x: Message)
    requires r.role.Leader? && a.kind.MsgHeartbeatResp? && a.term == r.term && a.from in r.prs && r.view.off == 0
    requires var p := r.prs[a.from]; p.size >= 1 && Window(p) && Rising(p.ins) && !p.state.Snapshotting? && !p.paused && p.matched < Last(r)
    ensures var o := Step(r, a); var p := r.prs[a.from];
            && o.Done? && o.out == {x} && LeadsOn(r, o.r) && o.r.committed == r.committed && a.from in o.r.prs
            && Brings(o.r, a.from, p.next, x)
            && var p' := o.r.prs[a.from];
               p'.matched == p.matched && p'.state == p.state && p'.size == p.size && (p.state.Probe? ==> p'.next == p.next)
  {
    hide Step, Brings;
    var p';
    x, p' := HeartbeatAnswered(r, a);
    SameBrings(r, Step(r, a).r, a.from, r.prs[a.from].next, x);
  }

  /** The leader takes the answer and brings what comes next. */
  lemma Answers(c0: Group, c: Group, n: NodeId, f: NodeId, q: set<NodeId>, a: Message)
    returns (c': Group, r: Raft, x: Message)
    requires Live(c) && Goes(c0, c, q) && n in q && n in c.nodes && f in c.nodes && f != n && c.nodes[n].role.Leader?
    requires a in c.net && a == Blank(MsgHeartbeatResp, n, f, c.nodes[n].term) && f in c.nodes[n].prs
    requires var p := c.nodes[n].prs[f]; !p.paused && p.matched < Last(c.nodes[n])
    ensures Live(c') && Goes(c0, c', q) && Moves(c, n, r, c') && LeadsOn(c.nodes[n], r) && x in c'.net
    ensures var p := c.nodes[n].prs[f];
            && Brings(r, f, p.next, x) && f in r.prs && r.prs[f].matched == p.matched && r.prs[f].state == p.state && r.prs[f].size == p.size
            && (p.state.Probe? ==> r.prs[f].next == p.next) && r.committed == c.nodes[n].committed
  {
    NodeKnown(c, n);
    PeerWindow(c.nodes[n], f);
    FirmPeer(c.nodes[n], f);
    hide Live, Goes, Firm, Keen, NodeFine, Step, Brings, LeadsOn, Moves, Window, Rising;
    c' := FireNet(c0, c, n, a, q);
    x := AnswerLeads(c.nodes[n], a);
    r := Step(c.nodes[n], a).r;
  }

  lemma PeerWindow(r: Raft, f: NodeId)
    requires NodeFine(r) && f in r.prs && f != r.id
    ensures Window(r.prs[f]) && Rising(r.prs[f].ins)
  {
  }

  lemma FirmPeer(r: Raft, f: NodeId)
    requires Firm(r) && f in r.prs
    ensures !r.prs[f].state.Snapshotting? && r.view.off == 0
    ensures r.role.Leader? ==> r.prs[f].matched <= Last(r) && r.prs[f].next <= Last(r) + 1
  {
  }

  /** The peer's answer to an append: a refusal, or an acknowledgement of at least one entry if
      there was one. */
  ghost predicate Replies(x: Message, y: Raft, a: Message) {
    && a.kind.MsgAppResp? && a.to == x.from && a.from == x.to && a.term == x.term
    && (if a.reject then a.index == x.index && a.rejectHint == Last(y) && TermOf(y.view, x.index) != x.logTerm
        else a.index >= x.index + if x.entries == [] then 0 else 1)
  }

  lemma TakeReplies(y: Raft, x: Message) returns (a: Message)
    requires x.kind.MsgApp? && Heeds(y, x) && Sane(y) && y.commit == y.committed && WellFormed(y, x) && x.to == y.id && Step(y, x).Done?
    ensures var o := Step(y, x);
            && o.out == {a} && Replies(x, y, a) && o.r.term == x.term && o.r.role.Follower?
            && (a.reject ==> o.r.view == y.view)
  {
    hide Step;
    if x.index < y.commit {
      ShortcutReply(y, x);
      a := AppendReply(y, x).(index := y.commit);
    } else if TermOf(y.view, x.index) != x.logTerm {
      RefusedAppend(y, x);
      a := AppendReply(y, x).(index := x.index, reject := true, rejectHint := Last(y));
    } else {
      var k := TakenAppend(y, x);
      a := AppendReply(y, x).(index := x.index + |x.entries|);
    }
  }

  lemma BringsWell(r: Raft, f: NodeId, next: Pos, x: Message, y: Raft)
    requires Brings(r, f, next, x) && r.view.off == 0 && next <= Last(r) + 1
    requires forall k | 0 <= k < |r.view.ents| :: r.view.ents[k].index == k + 1 && r.view.ents[k].term >= 1
    ensures WellFormed(y, x) && x.kind.MsgApp? && x.to == f && x.from == r.id && x.term == r.term && x.index == next - 1
  {
    forall k | 0 <= k < |x.entries| ensures x.entries[k].index == x.index + 1 + k && x.entries[k].term > 0 {
      assert x.entries[k] == r.view.ents[next + k - 1];
    }
  }

  /** The peer takes what is brought and answers. */
  lemma Takes(c0: Group, c: Group, n: NodeId, f: NodeId, q: set<NodeId>, next: Pos, x: Message)
    returns (c': Group, y: Raft, a: Message)
    requires Live(c) && Goes(c0, c, q) && f in q && n in c.nodes && f in c.nodes && f != n && c.nodes[n].role.Leader?
    requires c.nodes[f].term <= c.nodes[n].term && x in c.net && Brings(c.nodes[n], f, next, x) && next <= Last(c.nodes[n]) + 1
    ensures Live(c') && Goes(c0, c', q) && Moves(c, f, y, c') && a in c'.net
    ensures Replies(x, c.nodes[f], a) && y.term == c.nodes[n].term && y.role.Follower? && (a.reject ==> y.view == c.nodes[f].view)
  {
    NodeKnown(c, f);
    NodeKnown(c, n);
    if c.nodes[f].term == c.nodes[n].term {
      OneLeader(c, n, f);
    }
    LogReal(c, n);
    FirmBase(c.nodes[n]);
    FirmBase(c.nodes[f]);
    FineSane(c.nodes[f]);
    BringsWell(c.nodes[n], f, next, x, c.nodes[f]);
    hide Live, Goes, Firm, Keen, NodeFine, Step, Brings, Moves, WellFormed, Sane, Replies;
    c' := FireNet(c0, c, f, x, q);
    a := TakeReplies(c.nodes[f], x);
    y := Step(c.nodes[f], x).r;
  }

  lemma FirmBase(r: Raft)
    requires Firm(r)
    ensures r.view.off == 0 && r.commit == r.committed && r.committed <= Last(r)
  {
  }

  lemma FineSane(r: Raft)
    requires NodeFine(r)
    ensures Sane(r)
  {
  }

  // ---------------------------------------------------------------- each round gets closer

  /** How much is left to find out about a peer at the same match index: a probe above it comes
      down, one below it comes up, and optimism gives way to a probe. */
  function Doubt(p: Progress, last: nat): nat {
    if p.state.Replicate? then last + 3
    else if p.next > p.matched then p.next - p.matched
    else last + 3 + p.matched - p.next
  }

  ghost predicate Closer(p: Progress, p': Progress, last: nat) {
    p.matched < p'.matched || (p'.matched == p.matched && Doubt(p', last) < Doubt(p, last))
  }

  /** The record of a peer before something was sent and after, as far as it matters. */
  ghost predicate AsBefore(p: Progress, p': Progress) {
    p'.matched == p.matched && p'.state == p.state && (p.state.Probe? ==> p'.next == p.next)
  }

  /** A refusal says that the peer lacks something above the match index. */
  lemma RefusedAbove(r: Raft, y: Raft, x: Message, k: nat)
    requires r.view.off == 0 && y.view.off == 0 && r.view.offTerm == 0 && y.view.offTerm == 0 && Agree(r.view.ents, y.view.ents, k)
    requires x.logTerm == TermOf(r.view, x.index) && TermOf(y.view, x.index) != x.logTerm
    ensures x.index > k && k <= Last(y)
  {
    if 0 < x.index <= k {
      AgreePoint(r.view.ents, y.view.ents, k, x.index - 1);
    }
  }

  lemma RejectLearns(r: Raft, p: Progress, x: Message, y: Raft, a: Message)
    requires r.role.Leader? && a.from in r.prs && a.term == r.term && r.view.off == 0 && !p.state.Snapshotting?
    requires AsBefore(p, r.prs[a.from]) && a.kind.MsgAppResp? && a.reject && a.index == x.index && a.rejectHint == Last(y)
    requires x.index == p.next - 1 && x.index > p.matched && p.matched <= Last(y)
    ensures var o := Step(r, a); o.Done? && LeadsOn(r, o.r) && a.from in o.r.prs && Closer(p, o.r.prs[a.from], Last(r))
  {
    hide Step, Brings;
    var z, n, p' := RejectionExactly(r, a);
    if p.state.Probe? {
      assert Below(p.matched + 1, a.index, a.rejectHint);
    }
    assert Step(r, a).r.prs[a.from] == p';
  }

  lemma AckLearns(r: Raft, p: Progress, a: Message)
    requires Leading(r) && a.from in r.prs && a.term == r.term && !p.state.Snapshotting? && AsBefore(p, r.prs[a.from])
    requires a.kind.MsgAppResp? && !a.reject && a.index <= Last(r)
    requires a.index > p.matched || (p.state.Probe? && p.next <= a.index)
    ensures var o := Step(r, a); o.Done? && LeadsOn(r, o.r) && a.from in o.r.prs && Closer(p, o.r.prs[a.from], Last(r))
  {
    hide Step, Ordered;
    if a.index <= p.matched {
      OldAcknowledgement(r, a);
    } else {
      hide Leading;
      NewAckLearns(r, a);
    }
  }

  lemma NewAckLearns(r: Raft, a: Message)
    requires Leading(r) && a.from in r.prs && a.term == r.term && a.kind.MsgAppResp? && !a.reject
    requires r.prs[a.from].matched < a.index <= Last(r)
    ensures var o := Step(r, a); o.Done? && LeadsOn(r, o.r) && a.from in o.r.prs && o.r.prs[a.from].matched == a.index
  {
    assert r.role.Leader?;
    hide Step, CommitsTo, Leading, Alike, LeadsOn;
    var q, r2 := AckOutcome(r, a);
    RisesOnly(r.(prs := r.prs[a.from := q]), r2.committed);
    AlikeLeads(r, a.from, q, r2, Step(r, a).r);
  }

  lemma AlikeLeads(r: Raft, f: NodeId, q: Progress, r2: Raft, r': Raft)
    requires r.role.Leader? && f in r.prs && r.prs[f].matched <= q.matched && r.committed <= r2.committed
    requires r2 == r.(prs := r.prs[f := q], committed := r2.committed) && Alike(r2, r') && r'.id == r.id
    ensures LeadsOn(r, r') && f in r'.prs && r'.prs[f].matched == q.matched
  {
  }

  /** What the answer brings about. */
  lemma Learns(r: Raft, p: Progress, x: Message, y: Raft, a: Message)
    requires Leading(r) && a.from in r.prs && a.term == r.term && AsBefore(p, r.prs[a.from]) && !p.state.Snapshotting?
    requires Brings(r, a.from, p.next, x) && Replies(x, y, a) && p.matched < Last(r) && p.next <= Last(r) + 1
    requires p.state.Replicate? ==> p.matched < p.next
    requires y.view.off == 0 && y.view.offTerm == 0 && Agree(r.view.ents, y.view.ents, p.matched) && (!a.reject ==> a.index <= Last(r))
    ensures var o := Step(r, a); o.Done? && LeadsOn(r, o.r) && a.from in o.r.prs && Closer(p, o.r.prs[a.from], Last(r))
  {
    assert x.index == p.next - 1 && x.logTerm == TermOf(r.view, x.index) && (p.next <= Last(r) ==> x.entries != []);
    hide Step, Ordered, Brings, Closer, LeadsOn;
    if a.reject {
      RefusedAbove(r, y, x, p.matched);
      RejectLearns(r, p, x, y, a);
    } else {
      AckLearns(r, p, a);
    }
  }

  /** One round: a heartbeat, its answer, what the leader then brings, and the answer to that. */
  ghost predicate Rounded(c: Group, n: NodeId, f: NodeId, c': Group) {
    && n in c.nodes && f in c.nodes && c'.nodes.Keys == c.nodes.Keys
    && (forall v | v in c.nodes && v != n && v != f :: c'.nodes[v] == c.nodes[v])
    && LeadsOn(c.nodes[n], c'.nodes[n]) && c'.nodes[f].term == c.nodes[n].term
  }

  /** The leader takes the peer's answer to what it brought. */
  lemma Concludes(c0: Group, c: Group, n: NodeId, f: NodeId, q: set<NodeId>, p: Progress, x: Message, y: Raft, a: Message)
    returns (c': Group, r: Raft)
    requires Live(c) && Goes(c0, c, q) && n in q && n in c.nodes && c.nodes[n].role.Leader? && f in c.nodes && f != n
    requires a in c.net && x.from == n && x.to == f && x.term == c.nodes[n].term && Replies(x, y, a)
    requires f in c.nodes[n].prs && AsBefore(p, c.nodes[n].prs[f]) && !p.state.Snapshotting? && Brings(c.nodes[n], f, p.next, x)
    requires p.matched < Last(c.nodes[n]) && p.next <= Last(c.nodes[n]) + 1 && (p.state.Replicate? ==> p.matched < p.next)
    requires y.view.off == 0 && y.view.offTerm == 0 && Agree(c.nodes[n].view.ents, y.view.ents, p.matched)
    ensures Live(c') && Goes(c0, c', q) && Moves(c, n, r, c') && LeadsOn(c.nodes[n], r) && f in r.prs
    ensures Closer(p, r.prs[f], Last(r))
  {
    NodeKnown(c, n);
    if !a.reject {
      AckKnown(c, n, a);
    }
    FirmLeading(c.nodes[n]);
    Learns(c.nodes[n], p, x, y, a);
    NotTripped(c.nodes[n], a);
    hide Live, Goes, Firm, Keen, NodeFine, Step, Brings, Moves, Leading, Closer, AsBefore, LeadsOn;
    c' := FireNet(c0, c, n, a, q);
    r := Step(c.nodes[n], a).r;
    SameTerm(c.nodes[n], r);
  }

  lemma FirmLeading(r: Raft)
    requires Firm(r) && r.role.Leader?
    ensures Leading(r)
  {
  }

  lemma NotTripped(r: Raft, a: Message)
    requires a.kind.MsgAppResp?
    ensures !Trips(r, a)
  {
  }

  lemma Round(c0: Group, c: Group, n: NodeId, f: NodeId, q: set<NodeId>) returns (c': Group)
    requires Live(c) && Goes(c0, c, q) && n in q && f in q && n in c.nodes && f in c.nodes && f != n && c.nodes[n].role.Leader?
    requires c.nodes[f].term <= c.nodes[n].term && f in c.nodes[n].prs && c.nodes[n].prs[f].matched < Last(c.nodes[n])
    ensures Live(c') && Goes(c0, c', q) && Rounded(c, n, f, c') && f in c'.nodes[n].prs
    ensures Closer(c.nodes[n].prs[f], c'.nodes[n].prs[f], Last(c.nodes[n]))
  {
    hide Live, Goes, Brings, Replies, Closer;
    var c1, r1, m := Ticks(c0, c, n, f, q);
    var p := r1.prs[f];
    var c2, y2, a2 := Hears(c0, c1, n, f, q, m);
    var c3, r3, x := Answers(c0, c2, n, f, q, a2);
    RecordKnown(c2, n, f);
    PeerMatches(c3, n, f);
    BaseKnown(c3, f);
    var c4, y4, a4 := Takes(c0, c3, n, f, q, p.next, x);
    BringsTo(r3, f, p.next, x);
    var c5, r5 := Concludes(c0, c4, n, f, q, p, x, c3.nodes[f], a4);
    c' := c5;
    SameDoubt(c.nodes[n].prs[f], p, r5.prs[f], Last(r5));
  }

  lemma BringsTo(r: Raft, to: NodeId, next: Pos, x: Message)
    requires Brings(r, to, next, x)
    ensures x.from == r.id && x.to == to && x.term == r.term && x.index == next - 1
  {
  }

  lemma SameDoubt(p: Progress, p1: Progress, p': Progress, last: nat)
    requires p1 == p.(paused := false) && Closer(p1, p', last)
    ensures Closer(p, p', last)
  {
  }

  lemma RecordKnown(c: Group, n: NodeId, f: NodeId)
    requires Live(c) && n in c.nodes && c.nodes[n].role.Leader? && f in c.nodes[n].prs && f != n
    ensures var p := c.nodes[n].prs[f]; var last := Last(c.nodes[n]);
            && p.matched <= last && p.next <= last + 1 && !p.state.Snapshotting? && (p.state.Replicate? ==> p.matched < p.next)
            && c.nodes[n].id == n
  {
    NodeKnown(c, n);
    PeerWindow(c.nodes[n], f);
    FirmPeer(c.nodes[n], f);
  }

  lemma BaseKnown(c: Group, f: NodeId)
    requires Live(c) && f in c.nodes
    ensures c.nodes[f].view.off == 0 && c.nodes[f].view.offTerm == 0 && c.nodes[f].id == f && c.nodes[f].committed <= Last(c.nodes[f])
    ensures c.nodes[f].prs.Keys == c.nodes.Keys
  {
    NodeKnown(c, f);
  }

  // ---------------------------------------------------------------- bringing peers up to date

  /** Node n leads on, and nobody in q is ahead of its term. */
  ghost predicate Presides(c: Group, n: NodeId, q: set<NodeId>) {
    && n in q && q <= c.nodes.Keys && c.nodes[n].role.Leader? && forall v | v in q :: c.nodes[v].term <= c.nodes[n].term
  }

  ghost predicate PresidesOn(c: Group, n: NodeId, q: set<NodeId>, c': Group) {
    && Presides(c, n, q) && Presides(c', n, q) && c'.nodes.Keys == c.nodes.Keys && LeadsOn(c.nodes[n], c'.nodes[n])
  }

  lemma PresidesTwice(c: Group, n: NodeId, q: set<NodeId>, c1: Group, c2: Group)
    requires PresidesOn(c, n, q, c1) && PresidesOn(c1, n, q, c2)
    ensures PresidesOn(c, n, q, c2)
  {
    LeadsOnTwice(c.nodes[n], c1.nodes[n], c2.nodes[n]);
  }

  lemma RoundPresides(c: Group, n: NodeId, f: NodeId, q: set<NodeId>, c': Group)
    requires Presides(c, n, q) && f in q && Rounded(c, n, f, c')
    ensures PresidesOn(c, n, q, c')
  {
  }

  lemma StaysPut(c: Group, n: NodeId, q: set<NodeId>)
    requires Presides(c, n, q)
    ensures PresidesOn(c, n, q, c)
  {
  }

  /** However far a peer is behind, and whatever its record says, rounds of heartbeats bring it
      up to date. */
  lemma {:induction false} CatchesUp(c0: Group, c: Group, n: NodeId, f: NodeId, q: set<NodeId>) returns (c': Group)
    requires Live(c) && Goes(c0, c, q) && Presides(c, n, q) && f in q && f != n && f in c.nodes[n].prs
    requires c.nodes[n].prs[f].matched <= Last(c.nodes[n])
    ensures Live(c') && Goes(c0, c', q) && PresidesOn(c, n, q, c')
    ensures f in c'.nodes[n].prs && c'.nodes[n].prs[f].matched == Last(c'.nodes[n])
    decreases Last(c.nodes[n]) - c.nodes[n].prs[f].matched, Doubt(c.nodes[n].prs[f], Last(c.nodes[n]))
  {
    hide Live, Goes, PresidesOn;
    if c.nodes[n].prs[f].matched == Last(c.nodes[n]) {
      c' := c;
      StaysPut(c, n, q);
    } else {
      var c1 := Round(c0, c, n, f, q);
      RoundPresides(c, n, f, q, c1);
      RecordKnown(c1, n, f);
      PresidesStill(c, n, q, c1);
      c' := CatchesUp(c0, c1, n, f, q);
      PresidesTwice(c, n, q, c1, c');
    }
  }

  lemma PresidesStill(c: Group, n: NodeId, q: set<NodeId>, c': Group)
    requires PresidesOn(c, n, q, c')
    ensures Presides(c', n, q) && c'.nodes.Keys == c.nodes.Keys && LeadsOn(c.nodes[n], c'.nodes[n])
    ensures c'.nodes[n].view == c.nodes[n].view && c'.nodes[n].term == c.nodes[n].term && c'.nodes[n].prs.Keys == c.nodes[n].prs.Keys
  {
  }

  /** Peers of whom the leader knows that they have all it has. */
  ghost predicate UpToDateAll(r: Raft, done: set<NodeId>) {
    done <= r.prs.Keys && forall v | v in done :: r.prs[v].matched == Last(r)
  }

  lemma StillUpToDate(r: Raft, r': Raft, done: set<NodeId>)
    requires UpToDateAll(r, done) && LeadsOn(r, r') && forall v | v in r'.prs :: r'.prs[v].matched <= Last(r')
    ensures UpToDateAll(r', done)
  {
  }

  lemma MatchBound(c: Group, n: NodeId)
    requires Live(c) && n in c.nodes && c.nodes[n].role.Leader?
    ensures c.nodes[n].id == n && n in c.nodes[n].prs && c.nodes[n].prs.Keys == c.nodes.Keys
    ensures forall v | v in c.nodes[n].prs :: c.nodes[n].prs[v].matched <= Last(c.nodes[n])
  {
    NodeKnown(c, n);
  }

  lemma {:induction false} AllCatchUp(c0: Group, c: Group, n: NodeId, q: set<NodeId>, todo: set<NodeId>) returns (c': Group)
    requires Live(c) && Goes(c0, c, q) && Presides(c, n, q) && todo <= q - {n} && UpToDateAll(c.nodes[n], q - todo)
    ensures Live(c') && Goes(c0, c', q) && PresidesOn(c, n, q, c') && UpToDateAll(c'.nodes[n], q)
    decreases todo
  {
    hide Live, Goes, PresidesOn, LeadsOn, UpToDateAll;
    if todo == {} {
      c' := c;
      assert q - todo == q;
      StaysPut(c, n, q);
    } else {
      var f :| f in todo;
      MatchBound(c, n);
      var c1 := CatchesUp(c0, c, n, f, q);
      PresidesStill(c, n, q, c1);
      MatchBound(c1, n);
      StillUpToDate(c.nodes[n], c1.nodes[n], q - todo);
      OneMoreUpToDate(c1.nodes[n], q - todo, f);
      assert q - todo + {f} == q - (todo - {f});
      c' := AllCatchUp(c0, c1, n, q, todo - {f});
      PresidesTwice(c, n, q, c1, c');
    }
  }

  lemma OneMoreUpToDate(r: Raft, done: set<NodeId>, f: NodeId)
    requires UpToDateAll(r, done) && f in r.prs && r.prs[f].matched == Last(r)
    ensures UpToDateAll(r, done + {f})
  {
  }

  // ---------------------------------------------------------------- committing

  /** With a majority up to date, all of a log that ends in the leader's term is committed. */
  lemma AllCommitted(c: Group, n: NodeId, q: set<NodeId>)
    requires Live(c) && n in c.nodes && c.nodes[n].role.Leader? && UpToDateAll(c.nodes[n], q) && Majority(q, c.nodes.Keys)
    requires Own(c.nodes[n], Last(c.nodes[n]))
    ensures c.nodes[n].committed == Last(c.nodes[n])
  {
    NodeKnown(c, n);
    var r := c.nodes[n];
    MajorityGrows(q, Reached(r.prs, Last(r)), r.prs.Keys);
  }

  /** The peer is in the leader's term, has the leader's whole log, and has committed it. */
  ghost predicate Agreed(c: Group, n: NodeId, f: NodeId) {
    && n in c.nodes && f in c.nodes && c.nodes[f].term == c.nodes[n].term && c.nodes[f].committed >= Last(c.nodes[n])
    && Agree(c.nodes[n].view.ents, c.nodes[f].view.ents, |c.nodes[n].view.ents|)
  }

  ghost predicate AgreedAll(c: Group, n: NodeId, done: set<NodeId>) {
    forall f {:trigger Agreed(c, n, f)} | f in done :: Agreed(c, n, f)
  }

  lemma AgreedStill(c: Group, n: NodeId, f: NodeId, c': Group, done: set<NodeId>)
    requires AgreedAll(c, n, done) && f !in done && Rounded(c, n, f, c')
    ensures AgreedAll(c', n, done)
  {
    forall g | g in done ensures Agreed(c', n, g) {
      assert Agreed(c, n, g);
    }
  }

  /** A heartbeat tells a peer that is up to date how far it may commit. */
  lemma Announces(c0: Group, c: Group, n: NodeId, f: NodeId, q: set<NodeId>) returns (c': Group)
    requires Live(c) && Goes(c0, c, q) && Presides(c, n, q) && f in q && f != n
    requires UpToDateAll(c.nodes[n], q) && c.nodes[n].committed == Last(c.nodes[n])
    ensures Live(c') && Goes(c0, c', q) && Rounded(c, n, f, c') && Agreed(c', n, f)
    ensures UpToDateAll(c'.nodes[n], q) && c'.nodes[n].committed == Last(c'.nodes[n])
  {
    hide Live, Goes;
    var c1, r1, m := Ticks(c0, c, n, f, q);
    var c2, y, a := Hears(c0, c1, n, f, q, m);
    c' := c2;
    MatchBound(c', n);
    PeerMatches(c', n, f);
    BaseKnown(c', n);
  }

  lemma {:induction false} AllAnnounced(c0: Group, c: Group, n: NodeId, q: set<NodeId>, todo: set<NodeId>) returns (c': Group)
    requires Live(c) && Goes(c0, c, q) && Presides(c, n, q) && todo <= q - {n} && AgreedAll(c, n, q - todo)
    requires UpToDateAll(c.nodes[n], q) && c.nodes[n].committed == Last(c.nodes[n])
    ensures Live(c') && Goes(c0, c', q) && PresidesOn(c, n, q, c') && AgreedAll(c', n, q)
    decreases todo
  {
    hide Live, Goes, PresidesOn, LeadsOn, UpToDateAll, Agreed, Rounded;
    if todo == {} {
      c' := c;
      assert q - todo == q;
      StaysPut(c, n, q);
    } else {
      var f :| f in todo;
      var c1 := Announces(c0, c, n, f, q);
      RoundPresides(c, n, f, q, c1);
      PresidesStill(c, n, q, c1);
      AgreedStill(c, n, f, c1, q - todo);
      forall g | g in q - (todo - {f}) ensures Agreed(c1, n, g) {
      }
      c' := AllAnnounced(c0, c1, n, q, todo - {f});
      PresidesTwice(c, n, q, c1, c');
    }
  }

  /** The leader has taken something in, and knows that it has it itself. */
  ghost predicate HasTaken(r: Raft, data: seq<Entry>, r': Raft) {
    && r'.role.Leader? && r'.term == r.term && r'.id == r.id && r'.prs.Keys == r.prs.Keys && Extended(r, data, r'.view)
    && UpToDateAll(r', {r.id}) && Own(r', Last(r'))
  }

  lemma ProposalTaken(r: Raft, m: Message)
    requires Firm(r) && r.role.Leader? && m.kind.MsgProp? && m.term == 0 && m.entries != []
    ensures Step(r, m).Done? && HasTaken(r, m.entries, Step(r, m).r)
  {
    hide Step, Ordered, CommitsTo, Broadcasts;
    var r1, r2 := ProposalExactly(r, m);
    BroadcastAlike(r2, Step(r, m).r, Step(r, m).out);
    OwnLast(r, m.entries, r1);
  }

  lemma OwnLast(r: Raft, data: seq<Entry>, r1: Raft)
    requires Extended(r, data, r1.view) && data != [] && r.view.off == 0 && r1.term == r.term
    ensures Own(r1, Last(r1))
  {
    var k := |data| - 1;
    assert r1.view.ents[|r.view.ents| + k] == Entry(r.term, Last(r) + 1 + k, data[k].data);
  }

  lemma Proposes(c0: Group, c: Group, n: NodeId, q: set<NodeId>, data: seq<Entry>) returns (c': Group)
    requires Live(c) && Goes(c0, c, q) && Presides(c, n, q) && data != []
    ensures Live(c') && Goes(c0, c', q) && Presides(c', n, q) && c'.nodes.Keys == c.nodes.Keys
    ensures HasTaken(c.nodes[n], data, c'.nodes[n])
  {
    NodeKnown(c, n);
    var m := Blank(MsgProp, 0, 0, 0).(entries := data);
    ProposalTaken(c.nodes[n], m);
    InQuorum(c, n, q);
    hide Live, Goes, Firm, Keen, NodeFine, Step, HasTaken, Presides, Moves;
    c' := FireLocal(c0, c, n, m, q);
    TakenPresides(c, n, q, data, Step(c.nodes[n], m).r, c');
  }

  lemma TakenPresides(c: Group, n: NodeId, q: set<NodeId>, data: seq<Entry>, r: Raft, c': Group)
    requires Presides(c, n, q) && Moves(c, n, r, c') && HasTaken(c.nodes[n], data, r)
    ensures Presides(c', n, q) && c'.nodes.Keys == c.nodes.Keys && c'.nodes[n] == r
  {
    hide Extended, UpToDateAll, Own;
  }

  /** A leader that nobody in a majority is ahead of gets anything committed by that majority. */
  lemma LeaderCommits(c0: Group, c: Group, n: NodeId, q: set<NodeId>, data: seq<Entry>) returns (c': Group)
    requires Live(c) && Goes(c0, c, q) && Presides(c, n, q) && Majority(q, c.nodes.Keys) && data != []
    ensures Live(c') && Goes(c0, c', q) && Presides(c', n, q) && c'.nodes.Keys == c.nodes.Keys
    ensures Extended(c.nodes[n], data, c'.nodes[n].view) && AgreedAll(c', n, q)
  {
    hide Live, Goes, Presides, PresidesOn, UpToDateAll, AgreedAll, LeadsOn, Extended, Own, Majority;
    InQuorum(c, n, q);
    MatchBoundIf(c, n, q);
    var c1 := Proposes(c0, c, n, q, data);
    assert q - (q - {n}) == {n};
    var c2 := AllCatchUp(c0, c1, n, q, q - {n});
    PresidesStill(c1, n, q, c2);
    InQuorum(c2, n, q);
    OwnSame(c1.nodes[n], c2.nodes[n]);
    AllCommitted(c2, n, q);
    SelfAgreed(c2, n, q);
    c' := AllAnnounced(c0, c2, n, q, q - {n});
    PresidesStill(c2, n, q, c');
  }

  lemma InQuorum(c: Group, n: NodeId, q: set<NodeId>)
    requires Presides(c, n, q)
    ensures n in q && n in c.nodes && c.nodes[n].role.Leader?
  {
  }

  lemma MatchBoundIf(c: Group, n: NodeId, q: set<NodeId>)
    requires Live(c) && Presides(c, n, q)
    ensures c.nodes[n].id == n
  {
    MatchBound(c, n);
  }

  lemma OwnSame(r: Raft, r': Raft)
    requires Own(r, Last(r)) && r'.view == r.view && r'.term == r.term
    ensures Own(r', Last(r'))
  {
  }

  lemma SelfAgreed(c: Group, n: NodeId, q: set<NodeId>)
    requires n in c.nodes && n in q && c.nodes[n].committed == Last(c.nodes[n]) && Live(c)
    ensures AgreedAll(c, n, q - (q - {n}))
  {
    BaseKnown(c, n);
    assert Agreed(c, n, n);
  }

  // ---------------------------------------------------------------- electing

  /** What a candidate keeps while it stands. */
  ghost predicate Standing(c: Group, n: NodeId, r: Raft, yes: set<NodeId>) {
    && n in c.nodes && c.nodes[n].role.Candidate? && c.nodes[n].view == r.view && AllFor(c.nodes[n].votes, yes)
  }

  /** Exactly these have answered, and all are for the candidate. */
  ghost predicate AllFor(votes: map<NodeId, bool>, yes: set<NodeId>) {
    votes.Keys == yes && forall v | v in votes :: votes[v]
  }

  /** The candidate's requests are on their way. */
  ghost predicate Asked(c: Group, n: NodeId, f: NodeId) {
    n in c.nodes && Request(c.nodes[n], f) in c.net
  }

  function Request(r: Raft, f: NodeId): Message {
    Blank(MsgVote, f, r.id, r.term).(index := Last(r), logTerm := TermOf(r.view, Last(r)))
  }

  lemma CampaignStands(r: Raft, m: Message)
    requires Firm(r) && !r.role.Leader? && m.kind.MsgHup? && |r.prs| > 1
    ensures var o := Step(r, m);
            && o.Done? && o.r.role.Candidate? && o.r.term == r.term + 1 && o.r.view == r.view && o.r.id == r.id
            && AllFor(o.r.votes, {r.id}) && forall f | f in r.prs && f != r.id :: Request(o.r, f) in o.out
  {
    hide Step, Ordered;
    var r1 := CampaignExactly(r, m);
    var o := Step(r, m);
    forall f | f in r.prs && f != r.id ensures Request(o.r, f) in o.out {
      assert AsksAll(r, o.out);
    }
  }

  /** One campaign of a node that is not alone and does not lead. */
  lemma Campaigns(c0: Group, c: Group, n: NodeId, q: set<NodeId>) returns (c': Group, r: Raft)
    requires Live(c) && Goes(c0, c, q) && n in q && n in c.nodes && !c.nodes[n].role.Leader? && |c.nodes| > 1
    ensures Live(c') && Goes(c0, c', q) && Moves(c, n, r, c') && r.term == c.nodes[n].term + 1
    ensures Standing(c', n, c.nodes[n], {n}) && forall f | f in c.nodes && f != n :: Asked(c', n, f)
  {
    NodeKnown(c, n);
    SamePeerCount(c, n);
    var m := Blank(MsgHup, 0, 0, 0);
    CampaignStands(c.nodes[n], m);
    hide Live, Goes, Firm, Keen, NodeFine, Step, Request, AllFor;
    c' := FireLocal(c0, c, n, m, q);
    r := Step(c.nodes[n], m).r;
  }

  lemma SamePeerCount(c: Group, n: NodeId)
    requires n in c.nodes && c.nodes[n].prs.Keys == c.nodes.Keys
    ensures |c.nodes[n].prs| == |c.nodes|
  {
    assert |c.nodes[n].prs| == |c.nodes[n].prs.Keys| == |c.nodes.Keys| == |c.nodes|;
  }

  /** It campaigns until it is ahead of a given term. */
  lemma {:induction false} Overtakes(c0: Group, c: Group, n: NodeId, q: set<NodeId>, t: nat) returns (c': Group, r: Raft)
    requires Live(c) && Goes(c0, c, q) && n in q && n in c.nodes && !c.nodes[n].role.Leader? && |c.nodes| > 1
    ensures Live(c') && Goes(c0, c', q) && Moves(c, n, r, c') && r.term > t
    ensures Standing(c', n, c.nodes[n], {n}) && forall f | f in c.nodes && f != n :: Asked(c', n, f)
    decreases t + 1 - c.nodes[n].term
  {
    hide Live, Goes, Asked;
    c', r := Campaigns(c0, c, n, q);
    if r.term <= t {
      var c1 := c';
      assert c1.nodes.Keys == c.nodes.Keys;
      assert |c1.nodes| == |c1.nodes.Keys| == |c.nodes.Keys| == |c.nodes|;
      c', r := Overtakes(c0, c1, n, q, t);
      assert c1.nodes[n := r] == c.nodes[n := r];
    }
  }

  lemma GrantIs(y: Raft, m: Message)
    requires m.kind.MsgVote? && m.term > y.term && NotBehind(m.logTerm, m.index, y.view)
    ensures var o := Step(y, m);
            && o.Done? && Blank(MsgVoteResp, m.from, y.id, m.term) in o.out && o.r.term == m.term && o.r.view == y.view
  {
    hide Step;
    VoteExactly(y, m);
  }

  /** A node that is behind in its term, and not ahead in its log, gives its vote. */
  lemma Grants(c0: Group, c: Group, n: NodeId, f: NodeId, q: set<NodeId>) returns (c': Group, y: Raft, a: Message)
    requires Live(c) && Goes(c0, c, q) && f in q && n in c.nodes && f in c.nodes && f != n && Asked(c, n, f)
    requires c.nodes[f].term < c.nodes[n].term && NotBehind(LastTermOf(c.nodes[n].view), Last(c.nodes[n]), c.nodes[f].view)
    ensures Live(c') && Goes(c0, c', q) && Moves(c, f, y, c') && a in c'.net
    ensures a == Blank(MsgVoteResp, n, f, c.nodes[n].term) && y.term == c.nodes[n].term && y.view == c.nodes[f].view
  {
    BaseKnown(c, f);
    BaseKnown(c, n);
    var m := Request(c.nodes[n], f);
    GrantIs(c.nodes[f], m);
    hide Live, Goes, Step, NotBehind;
    c' := FireNet(c0, c, f, m, q);
    y := Step(c.nodes[f], m).r;
    a := Blank(MsgVoteResp, n, f, c.nodes[n].term);
  }

  /** Node r' leads in the term of r, with an empty entry behind its log. */
  ghost predicate InOffice(r: Raft, r': Raft) {
    r'.role.Leader? && r'.term == r.term && r'.id == r.id && Extended(r, [Entry(0, 0, Nil)], r'.view)
  }

  /** One more vote for a candidate: it is in office, or still stands with one vote more. */
  lemma VoteCounts(r: Raft, a: Message, yes: set<NodeId>)
    requires Firm(r) && Keen(r) && r.role.Candidate? && a.kind.MsgVoteResp? && a.term == r.term && !a.reject
    requires AllFor(r.votes, yes) && a.from !in yes
    ensures var o := Step(r, a);
            && o.Done? && o.r.term == r.term && o.r.id == r.id
            && (InOffice(r, o.r) || (o.r.role.Candidate? && o.r.view == r.view && AllFor(o.r.votes, yes + {a.from})))
  {
    hide Step, Ordered, CommitsTo, Broadcasts;
    var r1, r2 := TallyExactly(r, a);
    var votes := Counted(r, a);
    assert Noes(votes) == {};
    if Majority(Ayes(votes), r.prs.Keys) {
      BroadcastAlike(r2, Step(r, a).r, Step(r, a).out);
    }
  }

  lemma Counts(c0: Group, c: Group, n: NodeId, f: NodeId, q: set<NodeId>, r0: Raft, yes: set<NodeId>, a: Message)
    returns (c': Group, r: Raft)
    requires Live(c) && Goes(c0, c, q) && n in q && Standing(c, n, r0, yes) && f !in yes && a in c.net
    requires a == Blank(MsgVoteResp, n, f, c.nodes[n].term)
    ensures Live(c') && Goes(c0, c', q) && Moves(c, n, r, c') && r.term == c.nodes[n].term && r.id == c.nodes[n].id
    ensures InOffice(c.nodes[n], r) || (Standing(c', n, r0, yes + {f}) && r.view == c.nodes[n].view)
  {
    NodeKnown(c, n);
    VoteCounts(c.nodes[n], a, yes);
    hide Live, Goes, Firm, Keen, NodeFine, Step, AllFor, InOffice;
    c' := FireNet(c0, c, n, a, q);
    r := Step(c.nodes[n], a).r;
  }

  /** Everybody in q is at most in the candidate's term; those still to be asked are behind it,
      have been sent a request, and are not ahead in their logs. */
  ghost predicate Canvass(c: Group, n: NodeId, q: set<NodeId>, todo: set<NodeId>) {
    && n in c.nodes && n in q && q <= c.nodes.Keys && (forall f | f in q :: c.nodes[f].term <= c.nodes[n].term)
    && forall f {:trigger Askable(c, n, f)} | f in todo :: Askable(c, n, f)
  }

  ghost predicate Askable(c: Group, n: NodeId, f: NodeId) {
    && n in c.nodes && f in c.nodes && c.nodes[f].term < c.nodes[n].term && Asked(c, n, f)
    && NotBehind(LastTermOf(c.nodes[n].view), Last(c.nodes[n]), c.nodes[f].view)
  }

  lemma CanvassOn(c: Group, n: NodeId, f: NodeId, q: set<NodeId>, todo: set<NodeId>, y: Raft, r: Raft, c1: Group, c2: Group)
    requires Canvass(c, n, q, todo) && f in todo && f != n && Moves(c, f, y, c1) && Moves(c1, n, r, c2)
    requires y.term == c.nodes[n].term && r.term == c.nodes[n].term && r.id == c.nodes[n].id && r.view == c.nodes[n].view
    ensures Canvass(c2, n, q, todo - {f})
  {
    hide NotBehind;
    forall g | g in todo - {f} ensures Askable(c2, n, g) {
      assert Askable(c, n, g);
    }
  }

  /** Those who are for a candidate are no majority, as it would be in office. */
  lemma NotAllFor(c: Group, n: NodeId, r0: Raft, yes: set<NodeId>)
    requires Live(c) && Standing(c, n, r0, yes)
    ensures !Majority(yes, c.nodes.Keys)
  {
    NodeKnown(c, n);
    assert Ayes(c.nodes[n].votes) == yes;
  }

  /** Vote by vote the candidate gets into office. */
  lemma {:induction false} Elects(c0: Group, c: Group, n: NodeId, q: set<NodeId>, r0: Raft, todo: set<NodeId>) returns (c': Group)
    requires Live(c) && Goes(c0, c, q) && Standing(c, n, r0, q - todo) && todo <= q - {n} && Canvass(c, n, q, todo)
    requires Majority(q, c.nodes.Keys)
    ensures Live(c') && Goes(c0, c', q) && Presides(c', n, q) && c'.nodes.Keys == c.nodes.Keys
    ensures r0.view.ents <= c'.nodes[n].view.ents
    decreases todo
  {
    hide Live, Goes, NotBehind;
    if todo == {} {
      assert q - todo == q;
      NotAllFor(c, n, r0, q);
      assert false;
    } else {
      var f :| f in todo;
      assert Askable(c, n, f);
      var c1, y, a := Grants(c0, c, n, f, q);
      assert Standing(c1, n, r0, q - todo);
      var c2, r := Counts(c0, c1, n, f, q, r0, q - todo, a);
      if InOffice(c.nodes[n], r) {
        c' := c2;
        OfficePresides(c, n, f, q, todo, y, r, c1, c2);
      } else {
        CanvassOn(c, n, f, q, todo, y, r, c1, c2);
        assert q - todo + {f} == q - (todo - {f});
        c' := Elects(c0, c2, n, q, r0, todo - {f});
      }
    }
  }

  lemma OfficePresides(c: Group, n: NodeId, f: NodeId, q: set<NodeId>, todo: set<NodeId>, y: Raft, r: Raft, c1: Group, c2: Group)
    requires Canvass(c, n, q, todo) && f in todo && f != n && Moves(c, f, y, c1) && Moves(c1, n, r, c2)
    requires y.term == c.nodes[n].term && InOffice(c.nodes[n], r)
    ensures Presides(c2, n, q) && c2.nodes.Keys == c.nodes.Keys && c.nodes[n].view.ents <= c2.nodes[n].view.ents
  {
    hide Askable;
  }

  // ---------------------------------------------------------------- who may stand

  /** Node n's log is behind nobody's in q. */
  ghost predicate Foremost(c: Group, n: NodeId, q: set<NodeId>) {
    n in c.nodes && q <= c.nodes.Keys
    && forall f | f in q :: NotBehind(LastTermOf(c.nodes[n].view), Last(c.nodes[n]), c.nodes[f].view)
  }

  lemma {:induction false} SomeForemost(c: Group, q: set<NodeId>) returns (n: NodeId)
    requires q <= c.nodes.Keys && q != {}
    ensures n in q && Foremost(c, n, q)
    decreases q
  {
    var f :| f in q;
    if q - {f} == {} {
      assert q == {f};
      n := f;
    } else {
      var g := SomeForemost(c, q - {f});
      n := if NotBehind(LastTermOf(c.nodes[g].view), Last(c.nodes[g]), c.nodes[f].view) then g else f;
    }
  }

  lemma {:induction false} TermBound(c: Group, q: set<NodeId>) returns (t: nat)
    requires q <= c.nodes.Keys
    ensures forall f | f in q :: c.nodes[f].term <= t
    decreases q
  {
    if q == {} {
      t := 0;
    } else {
      var f :| f in q;
      t := TermBound(c, q - {f});
      t := Max(t, c.nodes[f].term);
    }
  }

  /** A node that does not lead, and whose log is behind nobody's in a majority, can be elected
      by it. */
  lemma StandsAndWins(c0: Group, c: Group, n: NodeId, q: set<NodeId>) returns (c': Group)
    requires Live(c) && Goes(c0, c, q) && n in q && Foremost(c, n, q) && !c.nodes[n].role.Leader? && Majority(q, c.nodes.Keys)
    ensures Live(c') && Goes(c0, c', q) && Presides(c', n, q) && c'.nodes.Keys == c.nodes.Keys
    ensures c.nodes[n].view.ents <= c'.nodes[n].view.ents
  {
    hide Live, Goes;
    if |c.nodes| > 1 {
      var t := TermBound(c, q);
      var c1, r := Overtakes(c0, c, n, q, t);
      OvertakenCanvass(c, n, q, t, r, c1);
      assert q - (q - {n}) == {n};
      c' := Elects(c0, c1, n, q, c.nodes[n], q - {n});
    } else {
      c' := StandsAlone(c0, c, n, q);
    }
  }

  lemma OvertakenCanvass(c: Group, n: NodeId, q: set<NodeId>, t: nat, r: Raft, c1: Group)
    requires Foremost(c, n, q) && n in q && Moves(c, n, r, c1) && r.term > t && (forall f | f in q :: c.nodes[f].term <= t)
    requires r.view == c.nodes[n].view && forall f | f in c.nodes && f != n :: Asked(c1, n, f)
    ensures Canvass(c1, n, q, q - {n}) && c1.nodes.Keys == c.nodes.Keys
  {
    hide NotBehind, Asked;
  }

  lemma AloneInOffice(r: Raft, m: Message)
    requires Firm(r) && !r.role.Leader? && m.kind.MsgHup? && |r.prs| == 1
    ensures var o := Step(r, m); o.Done? && o.r.role.Leader? && o.r.term == r.term + 1 && r.view.ents <= o.r.view.ents
  {
    hide Step, Ordered, CommitsTo;
    var r1 := CampaignExactly(r, m);
  }

  lemma StandsAlone(c0: Group, c: Group, n: NodeId, q: set<NodeId>) returns (c': Group)
    requires Live(c) && Goes(c0, c, q) && n in q && q <= c.nodes.Keys && !c.nodes[n].role.Leader? && |c.nodes| <= 1
    ensures Live(c') && Goes(c0, c', q) && Presides(c', n, q) && c'.nodes.Keys == c.nodes.Keys
    ensures c.nodes[n].view.ents <= c'.nodes[n].view.ents
  {
    NodeKnown(c, n);
    SamePeerCount(c, n);
    OnlyOne(c, n, q);
    var m := Blank(MsgHup, 0, 0, 0);
    AloneInOffice(c.nodes[n], m);
    hide Live, Goes, Firm, Keen, NodeFine, Step, Presides;
    c' := FireLocal(c0, c, n, m, q);
    AlonePresides(c', n);
  }

  lemma AlonePresides(c: Group, n: NodeId)
    requires n in c.nodes && c.nodes[n].role.Leader?
    ensures Presides(c, n, {n})
  {
  }

  lemma OnlyOne(c: Group, n: NodeId, q: set<NodeId>)
    requires n in q && q <= c.nodes.Keys && |c.nodes| <= 1
    ensures q == {n} && |c.nodes| == 1
  {
    assert |c.nodes.Keys| == |c.nodes|;
    SubsetSize({n}, c.nodes.Keys);
    forall f | f in q ensures f == n {
      if f != n {
        SubsetSize({n, f}, c.nodes.Keys);
      }
    }
  }

  // ---------------------------------------------------------------- stepping down

  /** Nothing has happened to the logs. */
  ghost predicate SameLogs(c: Group, c': Group) {
    c'.nodes.Keys == c.nodes.Keys && forall v | v in c.nodes :: c'.nodes[v].view == c.nodes[v].view
  }

  lemma ForemostStill(c: Group, n: NodeId, q: set<NodeId>, c': Group)
    requires Foremost(c, n, q) && SameLogs(c, c')
    ensures Foremost(c', n, q)
  {
    hide NotBehind;
  }

  lemma AskedStepsDown(r: Raft, m: Message)
    requires m.kind.MsgVote? && m.term > r.term
    ensures var o := Step(r, m); o.Done? && o.r.role.Follower? && o.r.view == r.view
  {
    hide Step;
    VoteExactly(r, m);
  }

  /** A request of a later term makes a leader step down. */
  lemma HearsRequest(c0: Group, c: Group, f: NodeId, n: NodeId, q: set<NodeId>) returns (c': Group, r: Raft)
    requires Live(c) && Goes(c0, c, q) && n in q && n in c.nodes && f in c.nodes && f != n && Asked(c, f, n)
    requires c.nodes[n].term < c.nodes[f].term
    ensures Live(c') && Goes(c0, c', q) && Moves(c, n, r, c') && r.role.Follower? && r.view == c.nodes[n].view
  {
    BaseKnown(c, n);
    var m := Request(c.nodes[f], n);
    AskedStepsDown(c.nodes[n], m);
    hide Live, Goes, Step;
    c' := FireNet(c0, c, n, m, q);
    r := Step(c.nodes[n], m).r;
  }

  /** A leader that somebody is ahead of learns of it and steps down. */
  lemma StepsDown(c0: Group, c: Group, n: NodeId, f: NodeId, q: set<NodeId>) returns (c': Group)
    requires Live(c) && Goes(c0, c, q) && n in q && f in q && n in c.nodes && f in c.nodes && c.nodes[n].term < c.nodes[f].term
    ensures Live(c') && Goes(c0, c', q) && SameLogs(c, c') && n in c'.nodes && !c'.nodes[n].role.Leader?
  {
    hide Live, Goes, SameLogs;
    if c.nodes[f].role.Leader? {
      c' := YieldsToLeader(c0, c, n, f, q);
    } else {
      c' := YieldsToRequest(c0, c, n, f, q);
    }
  }

  lemma YieldsToLeader(c0: Group, c: Group, n: NodeId, f: NodeId, q: set<NodeId>) returns (c': Group)
    requires Live(c) && Goes(c0, c, q) && n in q && f in q && n in c.nodes && f in c.nodes && c.nodes[n].term < c.nodes[f].term
    requires c.nodes[f].role.Leader?
    ensures Live(c') && Goes(c0, c', q) && SameLogs(c, c') && n in c'.nodes && !c'.nodes[n].role.Leader?
  {
    hide Live, Goes, LeadsOn;
    var c1, r, m := Ticks(c0, c, f, n, q);
    SameTerm(c.nodes[f], r);
    var y, a;
    c', y, a := Hears(c0, c1, f, n, q, m);
  }

  lemma YieldsToRequest(c0: Group, c: Group, n: NodeId, f: NodeId, q: set<NodeId>) returns (c': Group)
    requires Live(c) && Goes(c0, c, q) && n in q && f in q && n in c.nodes && f in c.nodes && c.nodes[n].term < c.nodes[f].term
    requires !c.nodes[f].role.Leader?
    ensures Live(c') && Goes(c0, c', q) && SameLogs(c, c') && n in c'.nodes && !c'.nodes[n].role.Leader?
  {
    hide Live, Goes, Asked, Standing;
    NotAlone(c, n, f);
    var c1, r := Campaigns(c0, c, f, q);
    StandingLog(c1, f, c.nodes[f]);
    var y;
    c', y := HearsRequest(c0, c1, f, n, q);
  }

  lemma NotAlone(c: Group, n: NodeId, f: NodeId)
    requires n in c.nodes && f in c.nodes && n != f
    ensures |c.nodes| > 1
  {
    assert |c.nodes.Keys| == |c.nodes|;
    SubsetSize({n, f}, c.nodes.Keys);
  }

  lemma StandingLog(c: Group, n: NodeId, r0: Raft)
    requires Standing(c, n, r0, {n})
    ensures n in c.nodes && c.nodes[n].view == r0.view
  {
  }

  // ---------------------------------------------------------------- the theorems

  /** Somebody in a majority leads it, with a log behind nobody's. */
  lemma SomebodyPresides(c0: Group, c: Group, q: set<NodeId>) returns (c': Group, n: NodeId)
    requires Live(c) && Goes(c0, c, q) && q <= c.nodes.Keys && Majority(q, c.nodes.Keys)
    ensures Live(c') && Goes(c0, c', q) && Presides(c', n, q) && c'.nodes.Keys == c.nodes.Keys
  {
    hide Live, Goes;
    assert q != {};
    n := SomeForemost(c, q);
    if !c.nodes[n].role.Leader? {
      c' := StandsAndWins(c0, c, n, q);
    } else if forall f | f in q :: c.nodes[f].term <= c.nodes[n].term {
      c' := c;
    } else {
      var f :| f in q && c.nodes[f].term > c.nodes[n].term;
      var c1 := StepsDown(c0, c, n, f, q);
      ForemostStill(c, n, q, c1);
      c' := StandsAndWins(c0, c1, n, q);
    }
  }

  function LastOf(u: Run): Group
    requires |u.states| >= 1
  {
    u.states[|u.states| - 1]
  }

  /** Run u' goes on from u, by events at the nodes of q that are not restarts. */
  ghost predicate GoesOnFrom(u: Run, u': Run, q: set<NodeId>) {
    && IsRun(u) && IsRun(u') && u'.boot == u.boot && u'.start == u.start
    && u.states <= u'.states && u.events <= u'.events
    && forall k | |u.events| <= k < |u'.events| :: Quiet(u'.events[k], q)
  }

  lemma RunPlus(u: Run, e: Event, c': Group)
    requires IsRun(u) && Next(LastOf(u), e, c')
    ensures IsRun(Run(u.states + [c'], u.events + [e], u.boot, u.start))
  {
    hide Next, Init;
    var u' := Run(u.states + [c'], u.events + [e], u.boot, u.start);
    forall j | 0 <= j < |u'.events| ensures StepAt(u', j) {
      if j < |u.events| {
        assert StepAt(u, j);
      }
    }
    assert u'.states[0] == u.states[0];
  }

  lemma GetsBack(c: Group, c': Group, q: set<NodeId>, k: nat) returns (c1: Group, e: Event)
    requires Gets(c, c', q, k) && k > 0
    ensures Gets(c, c1, q, k - 1) && Quiet(e, q) && Next(c1, e, c')
  {
    hide Next, Quiet;
    c1, e :| Gets(c, c1, q, k - 1) && Quiet(e, q) && Next(c1, e, c');
  }

  lemma GetsNone(c: Group, c': Group, q: set<NodeId>)
    requires Gets(c, c', q, 0)
    ensures c' == c
  {
  }

  lemma {:induction false} Extend(u: Run, c': Group, q: set<NodeId>, k: nat) returns (u': Run)
    requires |u.states| >= 1 && IsRun(u) && Gets(LastOf(u), c', q, k)
    ensures |u'.states| >= 1 && GoesOnFrom(u, u', q) && LastOf(u') == c'
    decreases k
  {
    hide IsRun, GoesOnFrom, Gets, Next, Quiet;
    if k == 0 {
      GetsNone(LastOf(u), c', q);
      u' := u;
      NoFurther(u, q);
    } else {
      var c1, e := GetsBack(LastOf(u), c', q, k);
      var u1 := Extend(u, c1, q, k - 1);
      u' := OneFurther(u, u1, e, c', q);
    }
  }

  lemma NoFurther(u: Run, q: set<NodeId>)
    requires IsRun(u)
    ensures GoesOnFrom(u, u, q)
  {
    hide IsRun;
  }

  lemma OneFurther(u: Run, u1: Run, e: Event, c': Group, q: set<NodeId>) returns (u': Run)
    requires GoesOnFrom(u, u1, q) && |u1.states| >= 1 && Quiet(e, q) && Next(LastOf(u1), e, c')
    ensures |u'.states| >= 1 && GoesOnFrom(u, u', q) && LastOf(u') == c'
  {
    hide IsRun, Next, Quiet;
    RunPlus(u1, e, c');
    u' := Run(u1.states + [c'], u1.events + [e], u1.boot, u1.start);
  }

  /** Every node of q has committed the leader's whole log, which ends with the given payloads. */
  ghost predicate HasCommitted(c: Group, n: NodeId, q: set<NodeId>, data: seq<Entry>) {
    && n in q && q <= c.nodes.Keys && c.nodes[n].role.Leader?
    && var l := c.nodes[n].view.ents;
       && |data| <= |l| && (forall k | 0 <= k < |data| :: l[|l| - |data| + k].data == data[k].data)
       && forall f | f in q :: c.nodes[f].committed >= |l| && l <= c.nodes[f].view.ents
  }

  lemma CommittedAll(c: Group, n: NodeId, q: set<NodeId>, r: Raft, data: seq<Entry>)
    requires Live(c) && Presides(c, n, q) && AgreedAll(c, n, q) && Extended(r, data, c.nodes[n].view)
    ensures HasCommitted(c, n, q, data)
  {
    BaseKnown(c, n);
    var l := c.nodes[n].view.ents;
    forall k | 0 <= k < |data| ensures l[|l| - |data| + k].data == data[k].data {
      assert l[|r.view.ents| + k].data == data[k].data;
    }
    forall f | f in q ensures c.nodes[f].committed >= |l| && l <= c.nodes[f].view.ents {
      assert Agreed(c, n, f);
      assert l == c.nodes[f].view.ents[..|l|];
    }
  }

  /** A group is never stuck: from every state of every run, every majority can on its own, with
      nobody restarted and all others silent, elect one of its members and commit any proposal
      at each of its members. */
  lemma NeverStuck(u: Run, q: set<NodeId>, data: seq<Entry>) returns (u': Run, n: NodeId)
    requires IsRun(u) && q <= LastOf(u).nodes.Keys && Majority(q, LastOf(u).nodes.Keys) && data != []
    ensures GoesOnFrom(u, u', q) && HasCommitted(LastOf(u'), n, q, data)
  {
    var c := LastOf(u);
    RunsAreLive(u, |u.states| - 1);
    hide Live, Presides, AgreedAll, Extended, HasCommitted, Gets, IsRun;
    GoesNowhere(c, q);
    var c1;
    c1, n := SomebodyPresides(c, c, q);
    var c2 := LeaderCommits(c, c1, n, q, data);
    CommittedAll(c2, n, q, c1.nodes[n], data);
    var k: nat :| Gets(c, c2, q, k);
    u' := Extend(u, c2, q, k);
  }

  /** A leader is never stuck either: as long as nobody in a majority is ahead of its term, it
      needs no new election to get a proposal committed. */
  lemma LeaderNeverStuck(u: Run, n: NodeId, q: set<NodeId>, data: seq<Entry>) returns (u': Run)
    requires IsRun(u) && q <= LastOf(u).nodes.Keys && Majority(q, LastOf(u).nodes.Keys) && data != [] && n in q
    requires LastOf(u).nodes[n].role.Leader? && forall f | f in q :: LastOf(u).nodes[f].term <= LastOf(u).nodes[n].term
    ensures GoesOnFrom(u, u', q) && HasCommitted(LastOf(u'), n, q, data)
  {
    var c := LastOf(u);
    RunsAreLive(u, |u.states| - 1);
    hide Live, AgreedAll, Extended, HasCommitted, Gets, IsRun;
    GoesNowhere(c, q);
    var c2 := LeaderCommits(c, c, n, q, data);
    CommittedAll(c2, n, q, c.nodes[n], data);
    var k: nat :| Gets(c, c2, q, k);
    u' := Extend(u, c2, q, k);
  }

  /** Whoever has a log that is behind nobody's in a majority, and does not lead, can come to
      lead. */
  lemma MayLead(u: Run, n: NodeId, q: set<NodeId>) returns (u': Run)
    requires IsRun(u) && q <= LastOf(u).nodes.Keys && Majority(q, LastOf(u).nodes.Keys) && n in q
    requires !LastOf(u).nodes[n].role.Leader? && Foremost(LastOf(u), n, q)
    ensures GoesOnFrom(u, u', q) && n in LastOf(u').nodes && LastOf(u').nodes[n].role.Leader?
  {
    var c := LastOf(u);
    RunsAreLive(u, |u.states| - 1);
    hide Live, Foremost, Gets, IsRun;
    GoesNowhere(c, q);
    var c2 := StandsAndWins(c, c, n, q);
    var k: nat :| Gets(c, c2, q, k);
    u' := Extend(u, c2, q, k);
  }

  /** From every bootstrapped group, every node can come to lead, with any majority it is in. */
  lemma AnyoneMayLead(u: Run, n: NodeId, q: set<NodeId>) returns (u': Run)
    requires IsRun(u) && |u.states| == 1 && q <= LastOf(u).nodes.Keys && Majority(q, LastOf(u).nodes.Keys) && n in q
    ensures GoesOnFrom(u, u', q) && n in LastOf(u').nodes && LastOf(u').nodes[n].role.Leader?
  {
    var c := LastOf(u);
    assert StartsAs(c, n, u.boot, u.start);
    forall f | f in q ensures NotBehind(LastTermOf(c.nodes[n].view), Last(c.nodes[n]), c.nodes[f].view) {
      assert StartsAs(c, f, u.boot, u.start);
    }
    u' := MayLead(u, n, q);
  }
}
