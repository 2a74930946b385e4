/** Safety of every run of a cluster: no panic, one leader per term, matching logs,
    complete leaders, and agreement on what is committed. */
module ClusterSafety {
  import opened Types
  import opened LogView
  import opened ProgressSpec
  import opened NodeSpec
  import opened Quorums
  import opened ProtocolLogs
  import opened Protocol
  import opened ProtocolSteps
  import opened ProtocolElections
  import opened ProtocolReplication
  import opened LogRefinement
  import opened Refinement
  import opened StepRefinement
  import opened Cluster

  ghost predicate NodeIs(s: State, n: NodeId, r: Raft) {
    && r.id == n && n in s.nodes
    && Sound(s.h.peers, r)
    && s.nodes[n] == Abs(r)
    && r.commit == r.committed
  }

  /** Protocol state s, with its history, explains cluster c. */
  ghost predicate Represents(s: State, c: Group) {
    && Inv(s)
    && s.nodes.Keys == c.nodes.Keys
    && s.h.peers == c.nodes.Keys
    && s.net == c.net
    && forall n {:trigger NodeIs(s, n, c.nodes[n])} | n in c.nodes :: NodeIs(s, n, c.nodes[n])
  }

  // ---------------------------------------------------------------- the start

  lemma StartedIs(peers: set<NodeId>, boot: nat, start: seq<Entry>, r: Raft)
    requires r.id in peers && r.maxInflight >= 1
    requires r == Started(r.id, peers, boot, start, r.maxInflight, r.limit)
    ensures Sound(peers, r) && r.commit == r.committed
    ensures Abs(r) == Node(boot, NONE, Follower, start, |start|, {}, map p | p in peers :: 0)
  {
    assert Granted(r) == {};
    assert Acked(r.prs) == map p | p in peers :: 0;
  }

  function InitState(c: Group, boot: nat, start: seq<Entry>): State {
    var peers := c.nodes.Keys;
    State(History(peers, boot, map[boot := start], map[], map[], map[], map v | v in peers :: (v, boot) := |start|),
          map n | n in c.nodes :: Abs(c.nodes[n]), {})
  }

  lemma InitNodeIs(c: Group, boot: nat, start: seq<Entry>, n: NodeId)
    requires Init(c, boot, start) && n in c.nodes
    ensures NodeIs(InitState(c, boot, start), n, c.nodes[n])
    ensures var x := InitState(c, boot, start).nodes[n];
            x.term == boot && x.vote == NONE && x.role.Follower? && x.log == start && x.commit == |start|
  {
    hide Abs, Sound;
    assert StartsAs(c, n, boot, start);
    StartedIs(c.nodes.Keys, boot, start, c.nodes[n]);
  }

  lemma InitRepresented(c: Group, boot: nat, start: seq<Entry>) returns (s: State)
    requires Init(c, boot, start)
    ensures Represents(s, c) && s.h.boot == boot
  {
    hide Inv, Abs, NodeIs, Started;
    s := InitState(c, boot, start);
    forall n | n in c.nodes
      ensures NodeIs(s, n, c.nodes[n])
      ensures s.nodes[n].term == boot && s.nodes[n].vote == NONE && s.nodes[n].role.Follower?
      ensures s.nodes[n].log == start && s.nodes[n].commit == |start|
    {
      InitNodeIs(c, boot, start, n);
    }
    InitialOK(s, start);
  }

  // ---------------------------------------------------------------- one step

  lemma OthersStillThere(s: State, s': State, c: Group, r: Raft, out: set<Message>)
    requires Represents(s, c) && Moved(s, s', r, out) && r.id in c.nodes && r.commit == r.committed
    ensures Represents(s', Group(c.nodes[r.id := r], c.net + out))
  {
    hide Inv, Abs, Sound;
    var c' := Group(c.nodes[r.id := r], c.net + out);
    forall n | n in c'.nodes ensures NodeIs(s', n, c'.nodes[n]) {
      if n != r.id {
        assert NodeIs(s, n, c.nodes[n]);
      }
    }
  }

  lemma StepRepresented(s: State, c: Group, e: Event) returns (s': State)
    requires Represents(s, c) && Enabled(c, e)
    ensures After(c, e).Done? && After(c, e).r.id == e.n && After(c, e).r.commit == After(c, e).r.committed
    ensures Moved(s, s', After(c, e).r, After(c, e).out)
  {
    hide Inv, Moved, Step, Restarted, MessageOK, Trips, FromWithin;
    var r := c.nodes[e.n];
    assert NodeIs(s, e.n, r);
    match e {
      case Deliver(n, m) =>
        InNet(s, m);
        if m.kind.MsgProp? {
          s' := ProposalMoves(s, r, m);
        } else {
          s' := NetStepMoves(s, r, m);
        }
        StepKeepsId(r, m);
      case Local(n, m) =>
        s' := LocalStepMoves(s, r, m);
        StepKeepsId(r, m);
      case Restart(n, a) =>
        s' := RestartMoves(s, r, a);
        RestartKeepsId(r, a);
    }
  }

  lemma InNet(s: State, m: Message)
    requires Inv(s) && m in s.net
    ensures MessageOK(s.h, m) && Wire(m)
  {
  }

  lemma RestartKeepsId(r: Raft, a: nat)
    ensures Restarted(r, a).id == r.id
  {
  }

  /** From a state that the protocol explains, no enabled event panics, and the next state
      is explained again by a longer history. */
  lemma NextRepresented(s: State, c: Group, e: Event) returns (s': State)
    requires Represents(s, c) && Enabled(c, e)
    ensures After(c, e).Done?
    ensures Represents(s', Group(c.nodes[e.n := After(c, e).r], c.net + After(c, e).out))
    ensures Extends(s.h, s'.h)
  {
    hide Inv, After, Represents;
    s' := StepRepresented(s, c, e);
    OthersStillThere(s, s', c, After(c, e).r, After(c, e).out);
  }

  // ---------------------------------------------------------------- whole runs

  lemma {:induction false} RunTo(u: Run, i: nat) returns (s: State)
    requires IsRun(u) && i < |u.states|
    ensures Represents(s, u.states[i])
  {
    hide Represents, Init, After;
    if i == 0 {
      s := InitRepresented(u.states[0], u.boot, u.start);
    } else {
      var s1 := RunTo(u, i - 1);
      assert StepAt(u, i - 1);
      s := NextRepresented(s1, u.states[i - 1], u.events[i - 1]);
    }
  }

  lemma {:induction false} RunOn(u: Run, i: nat, s: State, j: nat) returns (s': State)
    requires IsRun(u) && i <= j < |u.states| && Represents(s, u.states[i])
    ensures Represents(s', u.states[j]) && Extends(s.h, s'.h)
    decreases j
  {
    hide Represents, Init, After;
    if i == j {
      s' := s;
    } else {
      var s1 := RunOn(u, i, s, j - 1);
      assert StepAt(u, j - 1);
      s' := NextRepresented(s1, u.states[j - 1], u.events[j - 1]);
      ExtendsTransitive(s.h, s1.h, s'.h);
    }
  }

  /** No event that can happen in any state of any run makes a node panic. */
  lemma NoPanic(u: Run, i: nat, e: Event)
    requires IsRun(u) && i < |u.states| && Enabled(u.states[i], e)
    ensures After(u.states[i], e).Done?
  {
    hide Represents, After, Enabled, IsRun;
    var s := RunTo(u, i);
    var s' := NextRepresented(s, u.states[i], e);
  }

  /** Of all messages from within and of the network, a node panics exactly at those that trip
      a leader. */
  lemma PanicsExactly(u: Run, i: nat, n: NodeId, m: Message)
    requires IsRun(u) && i < |u.states| && n in u.states[i].nodes
    requires FromWithin(m) || (m in u.states[i].net && m.to == n)
    ensures var r := u.states[i].nodes[n];
            && (Step(r, m).Panic? <==> Trips(r, m))
            && r.prs.Keys == u.states[i].nodes.Keys
  {
    var c := u.states[i];
    MembersKnown(u, i, n);
    hide IsRun, Step;
    if Trips(c.nodes[n], m) {
      if m in c.net && !FromWithin(m) {
        SentTrips(u, i, n, m);
      }
      TripsPanic(c.nodes[n], m);
    } else if FromWithin(m) {
      NoPanic(u, i, Local(n, m));
    } else {
      NoPanic(u, i, Deliver(n, m));
    }
  }

  /** What is sent can trip a leader only as a proposal, which has no term. */
  lemma SentTrips(u: Run, i: nat, n: NodeId, m: Message)
    requires IsRun(u) && i < |u.states| && n in u.states[i].nodes && m in u.states[i].net && Trips(u.states[i].nodes[n], m)
    ensures m.term == 0
  {
    hide IsRun;
    var s := RunTo(u, i);
    assert MessageOK(s.h, m);
  }

  lemma MembersKnown(u: Run, i: nat, n: NodeId)
    requires IsRun(u) && i < |u.states| && n in u.states[i].nodes
    ensures u.states[i].nodes[n].prs.Keys == u.states[i].nodes.Keys
  {
    hide IsRun;
    var s := RunTo(u, i);
    assert NodeIs(s, n, u.states[i].nodes[n]);
  }

  /** Every bootstrapped group of nodes is the start of a run. */
  lemma RunStarts(ids: set<NodeId>, boot: nat, start: seq<Entry>, maxInflight: nat, limit: Limit)
    requires ids != {} && NONE !in ids && BootLog(boot, start) && maxInflight >= 1
    ensures IsRun(Run([Group(map n | n in ids :: Started(n, ids, boot, start, maxInflight, limit), {})], [], boot, start))
  {
    var c := Group(map n | n in ids :: Started(n, ids, boot, start, maxInflight, limit), {});
    assert c.nodes.Keys == ids;
    forall n | n in c.nodes ensures StartsAs(c, n, boot, start) {
    }
  }

  /** And every run goes on with any event that can happen. */
  lemma RunGoesOn(u: Run, e: Event)
    requires IsRun(u) && Enabled(u.states[|u.states| - 1], e)
    ensures var c := u.states[|u.states| - 1];
            var o := After(c, e);
            o.Done? && IsRun(Run(u.states + [Group(c.nodes[e.n := o.r], c.net + o.out)], u.events + [e], u.boot, u.start))
  {
    NoPanic(u, |u.states| - 1, e);
    hide Enabled, After, Init;
    var c := u.states[|u.states| - 1];
    var o := After(c, e);
    var u' := Run(u.states + [Group(c.nodes[e.n := o.r], c.net + o.out)], u.events + [e], u.boot, u.start);
    forall k | 0 <= k < |u'.events| ensures StepAt(u', k) {
      if k < |u.events| {
        assert StepAt(u, k);
      }
    }
  }

  // ---------------------------------------------------------------- terms, votes and leaders

  lemma NodeFacts(s: State, c: Group, n: NodeId)
    requires Represents(s, c) && n in c.nodes
    ensures HistoryOK(s.h) && NodeOK(s.h, n, Abs(c.nodes[n])) && n in s.h.peers && Sound(s.h.peers, c.nodes[n])
  {
    assert NodeIs(s, n, c.nodes[n]);
    assert NodeOK(s.h, n, s.nodes[n]);
  }

  lemma SameLeader(s: State, s': State, c: Group, c': Group, a: NodeId, b: NodeId)
    requires Represents(s, c) && Represents(s', c') && Extends(s.h, s'.h)
    requires a in c.nodes && b in c'.nodes
    requires c.nodes[a].role.Leader? && c'.nodes[b].role.Leader? && c.nodes[a].term == c'.nodes[b].term
    ensures a == b
  {
    hide Represents;
    NodeFacts(s, c, a);
    NodeFacts(s', c', b);
  }

  /** Election safety: whenever two nodes lead in the same term, they are the same node. */
  lemma ElectionSafety(u: Run, i: nat, j: nat, a: NodeId, b: NodeId)
    requires IsRun(u) && i <= j < |u.states|
    requires a in u.states[i].nodes && b in u.states[j].nodes
    requires u.states[i].nodes[a].role.Leader? && u.states[j].nodes[b].role.Leader?
    requires u.states[i].nodes[a].term == u.states[j].nodes[b].term
    ensures a == b
  {
    hide Represents, IsRun, Extends;
    var s := RunTo(u, i);
    var s' := RunOn(u, i, s, j);
    SameLeader(s, s', u.states[i], u.states[j], a, b);
  }

  // ---------------------------------------------------------------- logs

  lemma NodeLog(s: State, c: Group, n: NodeId)
    requires Represents(s, c) && n in c.nodes
    ensures LogOK(s.h.logs, c.nodes[n].view.ents, c.nodes[n].term) && c.nodes[n].view == Whole(c.nodes[n].view.ents)
  {
    hide Represents, HistoryOK;
    NodeFacts(s, c, n);
  }

  lemma LogsMatch(s: State, s': State, c: Group, c': Group, a: NodeId, b: NodeId, k: nat)
    requires Represents(s, c) && Represents(s', c') && Extends(s.h, s'.h)
    requires a in c.nodes && b in c'.nodes
    requires 1 <= k <= Last(c.nodes[a]) && k <= Last(c'.nodes[b])
    requires TermOf(c.nodes[a].view, k) == TermOf(c'.nodes[b].view, k)
    ensures Agree(c.nodes[a].view.ents, c'.nodes[b].view.ents, k)
  {
    hide Represents, LogOK;
    NodeLog(s, c, a);
    NodeLog(s', c', b);
    var x, y := c.nodes[a], c'.nodes[b];
    LogOKGrown(s.h.logs, s'.h.logs, x.view.ents, x.term, x.term);
    TermsMatch(x.view.ents, k);
    TermsMatch(y.view.ents, k);
    Matching(s'.h.logs, x.view.ents, x.term, y.view.ents, y.term, k - 1);
  }

  /** Log matching: logs with the same term at an index, of any two nodes at any two
      moments, are identical through that index. */
  lemma LogMatching(u: Run, i: nat, j: nat, a: NodeId, b: NodeId, k: nat)
    requires IsRun(u) && i <= j < |u.states|
    requires a in u.states[i].nodes && b in u.states[j].nodes
    requires 1 <= k <= Last(u.states[i].nodes[a]) && k <= Last(u.states[j].nodes[b])
    requires TermOf(u.states[i].nodes[a].view, k) == TermOf(u.states[j].nodes[b].view, k)
    ensures Agree(u.states[i].nodes[a].view.ents, u.states[j].nodes[b].view.ents, k)
  {
    hide Represents, IsRun, Extends;
    var s := RunTo(u, i);
    var s' := RunOn(u, i, s, j);
    LogsMatch(s, s', u.states[i], u.states[j], a, b, k);
  }

  /** Nothing is compacted in these runs. */
  lemma WholeLogs(u: Run, i: nat, n: NodeId)
    requires IsRun(u) && i < |u.states| && n in u.states[i].nodes
    ensures u.states[i].nodes[n].view.off == 0
  {
    hide Represents, IsRun;
    var s := RunTo(u, i);
    NodeFacts(s, u.states[i], n);
  }

  // ---------------------------------------------------------------- commitment

  lemma CommitsAgree(s: State, s': State, c: Group, c': Group, a: NodeId, b: NodeId)
    requires Represents(s, c) && Represents(s', c') && Extends(s.h, s'.h)
    requires a in c.nodes && b in c'.nodes
    ensures var x, y := c.nodes[a], c'.nodes[b];
            Agree(x.view.ents, y.view.ents, Min(x.committed, y.committed))
  {
    hide Represents;
    NodeFacts(s, c, a);
    NodeFacts(s', c', b);
    var x, y := c.nodes[a], c'.nodes[b];
    CommittedStable(s.h, s'.h, x.view.ents, x.committed, x.term, x.term);
    CommittedAgree(s'.h, x.view.ents, x.committed, x.term, y.view.ents, y.committed, y.term);
  }

  /** State machine safety: what any node has committed at any moment, and what any node
      has committed at any later moment, are the same entries as far as both reach. With
      a == b this says that a committed entry is never replaced. */
  lemma StateMachineSafety(u: Run, i: nat, j: nat, a: NodeId, b: NodeId)
    requires IsRun(u) && i <= j < |u.states|
    requires a in u.states[i].nodes && b in u.states[j].nodes
    ensures var x, y := u.states[i].nodes[a], u.states[j].nodes[b];
            Agree(x.view.ents, y.view.ents, Min(x.committed, y.committed))
  {
    hide Represents, IsRun, Extends;
    var s := RunTo(u, i);
    var s' := RunOn(u, i, s, j);
    CommitsAgree(s, s', u.states[i], u.states[j], a, b);
  }

  /** At one moment: what x committed in terms up to its own is in the election log of any
      leader of a later term, hence in all logs that leader ever had. */
  lemma LaterLeaderHas(h: History, l: Log, c: nat, t: nat, t2: nat)
    requires HistoryOK(h) && Committed(h, l, c, t) && t < t2 && t2 in h.leader
    ensures ElectedOK(h, t2) && Agree(l, ElectionLog(h, t2), c)
  {
    assert ElectedOK(h, t2);
    if c > 0 {
      var v, i :| Witness(h, l, c, t, v, i);
      LeaderCompleteness(h, v, i, t2);
      AgreeLess(ElectionLog(h, t2), h.logs[v], i, c);
    }
  }

  lemma LeaderLogAbove(s: State, c: Group, b: NodeId)
    requires Represents(s, c) && b in c.nodes && c.nodes[b].role.Leader?
    ensures var y := c.nodes[b];
            && y.term in s.h.leader && s.h.leader[y.term] == b && (b, y.term) in s.h.ballots
            && s.h.ballots[(b, y.term)].log <= y.view.ents
  {
    hide Represents;
    NodeFacts(s, c, b);
    LeaderOwnsLog(s.h, b, Abs(c.nodes[b]));
  }

  /** Leader completeness: whatever a node has committed at some moment is in the log of
      every leader of a later term, before or after that moment. */
  lemma LeadersComplete(u: Run, i: nat, j: nat, a: NodeId, b: NodeId)
    requires IsRun(u) && i < |u.states| && j < |u.states|
    requires a in u.states[i].nodes && b in u.states[j].nodes
    requires u.states[j].nodes[b].role.Leader? && u.states[i].nodes[a].term < u.states[j].nodes[b].term
    ensures Agree(u.states[i].nodes[a].view.ents, u.states[j].nodes[b].view.ents, u.states[i].nodes[a].committed)
  {
    hide Represents, IsRun;
    var x, y := u.states[i].nodes[a], u.states[j].nodes[b];
    if i <= j {
      var s := RunTo(u, i);
      var s' := RunOn(u, i, s, j);
      NodeFacts(s, u.states[i], a);
      LeaderLogAbove(s', u.states[j], b);
      NodeFacts(s', u.states[j], b);
      CommittedStable(s.h, s'.h, x.view.ents, x.committed, x.term, x.term);
      LaterLeaderHas(s'.h, x.view.ents, x.committed, x.term, y.term);
      AgreeGrown(x.view.ents, ElectionLog(s'.h, y.term), y.view.ents, x.committed);
    } else {
      var s := RunTo(u, j);
      var s' := RunOn(u, j, s, i);
      NodeFacts(s', u.states[i], a);
      LeaderLogAbove(s, u.states[j], b);
      LaterLeaderHas(s'.h, x.view.ents, x.committed, x.term, y.term);
      AgreeGrown(x.view.ents, ElectionLog(s'.h, y.term), y.view.ents, x.committed);
    }
  }

  // ---------------------------------------------------------------- match indices

  lemma MatchHolds(s: State, s': State, c: Group, c': Group, n: NodeId, v: NodeId)
    requires Represents(s, c) && Represents(s', c') && Extends(s.h, s'.h)
    requires n in c.nodes && v in c'.nodes && v in c.nodes[n].prs
    requires c.nodes[n].role.Leader? && c'.nodes[v].term == c.nodes[n].term
    ensures Agree(c.nodes[n].view.ents, c'.nodes[v].view.ents, c.nodes[n].prs[v].matched)
  {
    hide Represents, Inv, HistoryOK, Sound;
    NodeFacts(s, c, n);
    NodeFacts(s', c', v);
    var x, y := c.nodes[n], c'.nodes[v];
    var k := x.prs[v].matched;
    if k > 0 {
      LeaderRecorded(s.h, n, Abs(x), v);
      StillHolds(s'.h, v, Abs(y), k);
      AgreeGrown(x.view.ents, s.h.logs[x.term], s'.h.logs[x.term], k);
    }
  }

  lemma LeaderRecorded(h: History, n: NodeId, x: Node, v: NodeId)
    requires HistoryOK(h) && NodeOK(h, n, x) && x.role.Leader? && v in x.acked && x.acked[v] > 0
    ensures (v, x.term) in h.acks && x.acked[v] <= h.acks[(v, x.term)]
    ensures x.term in h.logs && Agree(x.log, h.logs[x.term], x.acked[v])
  {
    LeaderOwnsLog(h, n, x);
  }

  lemma StillHolds(h: History, v: NodeId, y: Node, k: nat)
    requires NodeOK(h, v, y) && (v, y.term) in h.acks && k <= h.acks[(v, y.term)]
    ensures y.term in h.logs && Agree(y.log, h.logs[y.term], k)
  {
    assert AckOK(h, v, y, y.term);
    assert Holds(h.logs, y.log, y.term, k, y.term);
  }

  /** What a leader's match index for a peer means: as long as the peer stays in that term,
      its log equals the leader's through the match index. */
  lemma MatchIsKept(u: Run, i: nat, j: nat, n: NodeId, v: NodeId)
    requires IsRun(u) && i <= j < |u.states|
    requires n in u.states[i].nodes && v in u.states[j].nodes && v in u.states[i].nodes[n].prs
    requires u.states[i].nodes[n].role.Leader? && u.states[j].nodes[v].term == u.states[i].nodes[n].term
    ensures Agree(u.states[i].nodes[n].view.ents, u.states[j].nodes[v].view.ents, u.states[i].nodes[n].prs[v].matched)
  {
    hide Represents, IsRun, Extends;
    var s := RunTo(u, i);
    var s' := RunOn(u, i, s, j);
    MatchHolds(s, s', u.states[i], u.states[j], n, v);
  }
}
