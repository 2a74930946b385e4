/** A raft node that changes its fields step by step. Each method does what the function of
    the same name in NodeSpec says: the same new state, and the same messages, each once. */
module RaftNodes {
  import opened Types
  import LV = LogView
  import opened ProgressSpec
  import Spec = NodeSpec
  import opened NodeSpec
  import opened RaftLogs
  import opened Storage
  import opened QuorumPick
  import opened StepRefinement
  import Cluster
  import ProtocolReplication

  function Items(s: seq<Message>): set<Message> {
    set m | m in s
  }

  /** `after` is `before` followed by the messages of `out`, each once. */
  ghost predicate Adds(before: seq<Message>, after: seq<Message>, out: set<Message>) {
    && before <= after
    && Items(after[|before|..]) == out
    && |after| - |before| == |out|
  }

  lemma AddsNothing(before: seq<Message>)
    ensures Adds(before, before, {})
  {
  }

  lemma AddsMore(a: seq<Message>, b: seq<Message>, c: seq<Message>, out: set<Message>, more: set<Message>)
    requires Adds(a, b, out) && Adds(b, c, more) && out !! more
    ensures Adds(a, c, out + more)
  {
    assert c[|a|..] == b[|a|..] + c[|b|..];
  }

  lemma AddsOneMore(a: seq<Message>, b: seq<Message>, c: seq<Message>, out: set<Message>, m: Message)
    requires Adds(a, b, out) && Adds(b, c, {m}) && m !in out
    ensures Adds(a, c, out + {m})
  {
    AddsMore(a, b, c, out, {m});
  }

  lemma AddsOne(before: seq<Message>, m: Message)
    ensures Adds(before, before + [m], {m})
  {
    assert (before + [m])[|before|..] == [m];
  }

  /** The hard state and the applied index agree with the stored log. */
  predicate CanOpen(hs: HardState, st: seq<Entry>, applied: nat)
    requires |st| >= 1
  {
    var base := st[0].index;
    && (hs != EmptyState ==> base <= hs.commit <= base + |st| - 1)
    && (applied > 0 ==> base <= applied <= if hs == EmptyState then base else hs.commit)
  }

  /** A node as it comes up from what was stored. */
  function Opened(id: NodeId, hs: HardState, st: seq<Entry>, snap: Snapshot, nodes: set<NodeId>, applied: nat,
                  maxInflight: nat, limit: LV.Limit): Raft
    requires |st| >= 1
  {
    var base := st[0].index;
    Spec.BecomeFollower(
      Raft(id, hs.term, hs.vote, hs.commit, LV.View(base, st[0].term, st[1..]),
           if hs == EmptyState then base else hs.commit, if applied == 0 then base else applied, snap, false,
           Introduced(nodes, maxInflight), Follower, map[], NONE, maxInflight, limit),
      hs.term, NONE)
  }

  function Introduced(nodes: set<NodeId>, maxInflight: nat): map<NodeId, Progress> {
    map p | p in nodes :: Fresh(0, 1, maxInflight)
  }

  /** One entry for each peer, numbered from 1, all of term 1. */
  function BootEntries(contexts: seq<Payload>): seq<Entry> {
    seq(|contexts|, k requires 0 <= k < |contexts| => Entry(1, k + 1, contexts[k]))
  }

  lemma BootOneMore(a: seq<Payload>, c: Payload)
    ensures BootEntries(a + [c]) == BootEntries(a) + [Entry(1, |a| + 1, c)]
    ensures var v := LV.View(0, 0, BootEntries(a));
            LV.TruncateAppend(v, |a|, [Entry(1, |a| + 1, c)]) == LV.View(0, 0, BootEntries(a + [c]))
  {
  }

  /** A node whose log, hard state and configuration are all in storage comes up as the
      restart step of a cluster says. */
  lemma OpenedIsRestarted(r: Raft, st: seq<Entry>, applied: nat)
    requires |st| >= 1 && r.view == LV.View(st[0].index, st[0].term, st[1..])
    requires r.commit == r.committed && r.term > 0 && st[0].index <= applied
    ensures Opened(r.id, HardState(r.term, r.vote, r.commit), st, r.snap, r.prs.Keys, applied, r.maxInflight, r.limit)
            == Restarted(r, applied)
  {
  }

  class RaftNode {
    const id: NodeId
    const log: RaftLog
    const maxInflight: nat
    const limit: LV.Limit
    var term: nat
    var vote: NodeId
    var commit: nat
    var prs: map<NodeId, Progress>
    var role: Role
    var votes: map<NodeId, bool>
    var msgs: seq<Message>
    var lead: NodeId

    /** Build a node from what storage holds. */
    constructor (id: NodeId, peers: set<NodeId>, storage: MemoryStorage, applied: nat, maxInflight: nat, limit: LV.Limit)
      requires storage.Valid() && id != NONE && maxInflight >= 1
      requires storage.snapshot.nodes == {} || peers == {}
      requires CanOpen(storage.hardState, storage.ents, applied)
      ensures Valid() && msgs == [] && fresh(log) && fresh(log.unstable) && log.storage == storage
      ensures State() == Opened(id, storage.hardState, storage.ents, storage.snapshot,
                                peers + storage.snapshot.nodes, applied, maxInflight, limit)
    {
      this.id := id;
      this.log := new RaftLog(storage);
      this.maxInflight := maxInflight;
      this.limit := limit;
      this.msgs := [];
      this.lead := NONE;
      this.role := Follower;
      this.votes := map[];
      this.prs := map[];
      this.term, this.vote, this.commit := 0, NONE, 0;
      new;
      hide RaftLog.Valid, RaftLog.Log, Spec.BecomeFollower, Introduced;
      var nodes := peers;
      if storage.snapshot.nodes != {} {
        nodes := storage.snapshot.nodes;
      }
      assert nodes == peers + storage.snapshot.nodes;
      prs := Introduced(nodes, maxInflight);
      Recover(storage.hardState, applied);
      BecomeFollower(term, NONE);
    }

    /** The first start of a member: a log of one committed entry for each peer, at term 1.
        Nothing is marked as applied, so that the application sees them all. */
    method Bootstrap(peers: seq<NodeId>, contexts: seq<Payload>)
      requires Valid() && |peers| == |contexts|
      requires State() == Opened(id, EmptyState, [Entry(0, 0, Nil)], NoSnapshot, {}, 0, maxInflight, limit)
      modifies this, log`committed, log.unstable
      ensures Valid() && msgs == old(msgs) && ProtocolReplication.BootLog(1, BootEntries(contexts))
      ensures State() == Cluster.Started(id, set p | p in peers, 1, BootEntries(contexts), maxInflight, limit)
    {
      hide RaftLog.Valid, RaftLog.Log;
      BecomeFollower(1, NONE);
      AppendBoot(contexts);
      Introduce(peers);
      assert prs == Cluster.Started(id, set p | p in peers, 1, BootEntries(contexts), maxInflight, limit).prs;
    }

    method AppendBoot(contexts: seq<Payload>)
      requires Valid() && log.Log() == LV.View(0, 0, []) && log.committed == 0
      modifies this`commit, log`committed, log.unstable
      ensures Valid()
      ensures State() == old(State()).(view := LV.View(0, 0, BootEntries(contexts)), committed := |contexts|, commit := |contexts|)
    {
      for k := 0 to |contexts|
        invariant Valid() && State() == old(State()).(view := LV.View(0, 0, BootEntries(contexts[..k])))
      {
        assert contexts[..k + 1] == contexts[..k] + [contexts[k]];
        BootOneMore(contexts[..k], contexts[k]);
        var _ := log.Append([Entry(1, log.LastIndex() + 1, contexts[k])]);
      }
      assert contexts[..|contexts|] == contexts;
      log.committed := log.LastIndex();
      commit := log.committed;
    }

    /** Peers that are already there are left alone. */
    method Introduce(peers: seq<NodeId>)
      requires Valid() && prs == map[]
      modifies this`prs
      ensures prs == map p | p in peers :: Fresh(0, LV.LastIndex(log.Log()) + 1, maxInflight)
    {
      hide RaftLog.Valid, RaftLog.Log;
      var next := log.LastIndex() + 1;
      for k := 0 to |peers|
        invariant prs == map p | p in peers[..k] :: Fresh(0, next, maxInflight)
      {
        ghost var met := peers[..k + 1];
        assert met == peers[..k] + [peers[k]];
        if peers[k] !in prs {
          prs := prs[peers[k] := Fresh(0, next, maxInflight)];
        }
        assert prs == map p | p in met :: Fresh(0, next, maxInflight);
      }
      assert peers[..|peers|] == peers;
    }

    method Recover(hs: HardState, applied: nat)
      requires Valid() && term == 0 && vote == NONE && commit == 0
      requires hs != EmptyState ==> log.committed <= hs.commit <= LV.LastIndex(log.Log())
      requires applied > 0 ==> log.applied <= applied <= if hs == EmptyState then log.committed else hs.commit
      modifies this`term, this`vote, this`commit, log
      ensures Valid()
      ensures State() == old(State()).(term := hs.term, vote := hs.vote, commit := hs.commit,
                                       committed := if hs == EmptyState then old(log.committed) else hs.commit,
                                       applied := if applied == 0 then old(log.applied) else applied)
    {
      if hs != EmptyState {
        LoadState(hs);
      }
      if applied > 0 {
        log.AppliedTo(applied);
      }
    }

    method LoadState(hs: HardState)
      requires Valid() && log.committed <= hs.commit <= LV.LastIndex(log.Log())
      modifies this`term, this`vote, this`commit, log`committed
      ensures Valid()
      ensures State() == old(State()).(term := hs.term, vote := hs.vote, commit := hs.commit, committed := hs.commit)
    {
      log.committed := hs.commit;
      term, vote, commit := hs.term, hs.vote, hs.commit;
    }

    ghost predicate Valid()
      reads this, log, log.storage, log.unstable
    {
      log.Valid()
    }

    ghost function State(): Raft
      requires Valid()
      reads this, log, log.storage, log.unstable
    {
      Raft(id, term, vote, commit, log.Log(), log.committed, log.applied, log.LatestSnapshot(), log.unstable.snapshot.Some?,
           prs, role, votes, lead, maxInflight, limit)
    }

    /** The node is now where o says, and has sent what o says. */
    ghost predicate Reaches(o: Outcome, before: seq<Message>)
      reads this, log, log.storage, log.unstable
    {
      Valid() && o.Done? && State() == o.r && Adds(before, msgs, o.out)
    }

    // ------------------------------------------------------------ sending

    method Send(m: Message)
      modifies this`msgs
      ensures msgs == old(msgs) + [m.(from := id, term := if m.kind.MsgProp? then m.term else term)]
      ensures Adds(old(msgs), msgs, {m.(from := id, term := if m.kind.MsgProp? then m.term else term)})
    {
      var m' := m.(from := id);
      if !m'.kind.MsgProp? {
        m' := m'.(term := term);
      }
      AddsOne(msgs, m');
      msgs := msgs + [m'];
    }

    /** The message for a peer that is not paused, and the peer's record after it. */
    method PrepareAppend(to: NodeId) returns (m: Message, pr: Progress)
      requires Valid() && to in prs && !IsPaused(prs[to]) && !Spec.AppendTo(State(), to).SendPanic?
      ensures !m.kind.MsgProp? && Spec.AppendTo(State(), to) == Sent(pr, {m.(from := id, term := term)})
    {
      hide LV.LimitSize, LV.Slice, LV.TermOf, RaftLog.Valid, RaftLog.Log;
      pr := prs[to];
      var term := log.Term(pr.next - 1);
      var ents := log.Entries(pr.next, limit);
      if term.Err? || ents.Err? {
        var snapshot := log.LatestSnapshot();
        m := Blank(MsgSnap, to, 0, 0).(snapshot := snapshot);
        pr := BecomeSnapshot(pr, snapshot.index);
      } else {
        m := Blank(MsgApp, to, 0, 0)
          .(index := pr.next - 1, logTerm := term.value, entries := ents.value, commit := log.committed);
        var n := |m.entries|;
        if n != 0 {
          var last := m.entries[n - 1].index;
          pr := if pr.state.Replicate? then pr.(next := last + 1, ins := pr.ins + [last]) else pr.(paused := true);
        }
      }
    }

    method SendAppend(to: NodeId)
      requires Valid() && !Spec.SendAppend(State(), to).Panic?
      modifies this`prs, this`msgs
      ensures Reaches(Spec.SendAppend(old(State()), to), old(msgs))
    {
      hide Adds, RaftLog.Valid, RaftLog.Log, AppendTo;
      PausedAppend(State(), to);
      if IsPaused(prs[to]) {
        AddsNothing(msgs);
        return;
      }
      var m, pr := PrepareAppend(to);
      prs := prs[to := pr];
      Send(m);
    }

    method BcastAppend()
      requires Valid() && !Spec.BcastAppend(State()).Panic?
      modifies this`prs, this`msgs
      ensures Reaches(Spec.BcastAppend(old(State())), old(msgs))
    {
      hide RaftLog.Valid, RaftLog.Log, AppendTo, Adds, SentSoFar, Split;
      ghost var r0, done := State(), {};
      AddsNothing(msgs);
      SentNone(r0);
      TakeNone(prs.Keys);
      var todo := prs.Keys;
      while todo != {}
        invariant done <= r0.prs.Keys && Split(r0.prs.Keys, done, todo)
        invariant Valid() && SentSoFar(r0, done, State())
        invariant Adds(old(msgs), msgs, SentTo(r0, done))
      {
        var i :| i in todo;
        TakeOne(r0.prs.Keys, done, todo, i);
        ghost var before, r := msgs, State();
        SendsNext(r0, done, r, i);
        if i != id {
          SendAppend(i);
          AddsPeer(r0, old(msgs), before, msgs, done, i);
        }
        todo, done := todo - {i}, done + {i};
      }
      TookAll(r0.prs.Keys, done);
      SentAll(r0, State());
    }

    method SendHeartbeat(to: NodeId)
      requires Valid() && to in prs
      modifies this`prs, this`msgs
      ensures Valid() && State() == Resume(old(State()), to)
      ensures Adds(old(msgs), msgs, {HeartbeatMessage(old(State()), to)})
    {
      hide RaftLog.Valid, RaftLog.Log, Adds;
      var c := Min(prs[to].matched, log.committed);
      Send(Blank(MsgHeartbeat, to, 0, 0).(commit := c));
      prs := prs[to := prs[to].(paused := false)];
    }

    method BcastHeartbeat()
      requires Valid()
      modifies this`prs, this`msgs
      ensures Reaches(Spec.BcastHeartbeat(old(State())), old(msgs))
    {
      hide RaftLog.Valid, RaftLog.Log, Adds, Resumed, Resume, HeartbeatsTo, HeartbeatMessage, Spec.BcastHeartbeat, Split;
      ghost var r0, done := State(), {};
      AddsNothing(msgs);
      HeartbeatsNone(r0);
      TakeNone(prs.Keys);
      var todo := prs.Keys;
      while todo != {}
        invariant done <= r0.prs.Keys && Split(r0.prs.Keys, done, todo)
        invariant Valid() && Resumed(r0, done, State())
        invariant Adds(old(msgs), msgs, HeartbeatsTo(r0, done))
      {
        var i :| i in todo;
        TakeOne(r0.prs.Keys, done, todo, i);
        HeartbeatsNext(r0, done, State(), i);
        if i != id {
          ghost var before := msgs;
          SendHeartbeat(i);
          AddsOneMore(old(msgs), before, msgs, HeartbeatsTo(r0, done), HeartbeatMessage(r0, i));
        }
        todo, done := todo - {i}, done + {i};
      }
      TookAll(r0.prs.Keys, done);
      HeartbeatsAll(r0, State());
    }

    // ------------------------------------------------------------ committing

    method MaybeCommit() returns (ok: bool)
      requires Valid() && !Spec.MaybeCommit(State()).Panic?
      modifies log`committed
      ensures Reaches(Spec.MaybeCommit(old(State())), old(msgs))
      ensures ok <==> log.committed != old(log.committed)
    {
      hide IsQuorumIndex, LV.TermOf;
      AddsNothing(msgs);
      var mci := PickQuorumIndex(prs);
      ok := log.MaybeCommit(mci, term);
    }

    method AppendEntry(es: seq<Entry>)
      requires Valid() && !Spec.AppendEntry(State(), es).Panic?
      modifies this`prs, log`committed, log.unstable
      ensures Reaches(Spec.AppendEntry(old(State()), es), old(msgs))
    {
      hide Spec.MaybeCommit, LV.TruncateAppend;
      var li := log.LastIndex();
      var stamped: seq<Entry> := [];
      for i := 0 to |es|
        invariant stamped == Stamp(term, li, es[..i])
      {
        stamped := stamped + [es[i].(term := term, index := li + 1 + i)];
        assert es[..i + 1] == es[..i] + [es[i]];
      }
      assert es[..|es|] == es;
      var last := log.Append(stamped);
      prs := prs[id := MaybeUpdate(prs[id], last)];
      var _ := MaybeCommit();
    }

    // ------------------------------------------------------------ changing role

    method ResetProgress()
      requires Valid()
      modifies this`prs
      ensures prs == Restart(old(prs), id, LV.LastIndex(log.Log()), maxInflight)
    {
      hide RaftLog.Valid, RaftLog.Log;
      var last := log.LastIndex();
      ghost var was := prs;
      var todo := prs.Keys;
      while todo != {}
        invariant prs.Keys == was.Keys && todo <= prs.Keys
        invariant forall i | i in prs && i !in todo :: prs[i] == Restart(was, id, last, maxInflight)[i]
      {
        var i :| i in todo;
        var pr := Fresh(0, last + 1, maxInflight);
        if i == id {
          pr := pr.(matched := last);
        }
        prs := prs[i := pr];
        todo := todo - {i};
      }
      assert prs == Restart(was, id, last, maxInflight);
    }

    method Reset(t: nat)
      requires Valid()
      modifies this
      ensures Valid() && State() == Spec.Reset(old(State()), t) && msgs == old(msgs)
    {
      hide RaftLog.Valid, RaftLog.Log;
      if term != t {
        term := t;
        vote := NONE;
      }
      lead := NONE;
      votes := map[];
      ResetProgress();
      assert prs == Spec.Reset(old(State()), t).prs;
    }

    method BecomeFollower(t: nat, l: NodeId)
      requires Valid()
      modifies this
      ensures Valid() && State() == Spec.BecomeFollower(old(State()), t, l) && msgs == old(msgs)
    {
      Reset(t);
      lead := l;
      role := Follower;
    }

    method BecomeCandidate()
      requires Valid() && !Spec.BecomeCandidate(State()).Panic?
      modifies this
      ensures Valid() && Done(State(), {}) == Spec.BecomeCandidate(old(State())) && msgs == old(msgs)
    {
      Reset(term + 1);
      vote := id;
      role := Candidate;
    }

    method BecomeLeader()
      requires Valid() && !Spec.BecomeLeader(State()).Panic?
      modifies this, log`committed, log.unstable
      ensures Reaches(Spec.BecomeLeader(old(State())), old(msgs))
    {
      hide Spec.AppendEntry;
      Reset(term);
      lead := id;
      role := Leader;
      AppendEntry([Entry(0, 0, Nil)]);
    }

    method Poll(from: NodeId, v: bool) returns (granted: nat)
      requires Valid()
      modifies this`votes
      ensures Valid() && State() == Polled(old(State()), from, v)
      ensures granted == |Granted(State())| && granted <= |votes|
    {
      hide RaftLog.Valid, RaftLog.Log;
      if from !in votes {
        votes := votes[from := v];
      }
      granted := CountGranted(votes);
      GrantedIs(State());
    }

    method AskVote(to: NodeId)
      requires Valid()
      modifies this`msgs
      ensures Valid() && State() == old(State()) && Adds(old(msgs), msgs, {VoteMessage(State(), to)})
    {
      hide RaftLog.Valid, RaftLog.Log, Adds;
      Send(Blank(MsgVote, to, 0, 0).(index := log.LastIndex(), logTerm := log.LastTerm()));
    }

    method AskVotes()
      requires Valid()
      modifies this`msgs
      ensures Valid() && State() == old(State()) && Adds(old(msgs), msgs, VotesAsked(old(State()), old(prs).Keys))
    {
      hide RaftLog.Valid, RaftLog.Log, Adds, VotesAsked, VoteMessage, Split;
      ghost var r0, done := State(), {};
      AddsNothing(msgs);
      VotesNone(r0);
      TakeNone(prs.Keys);
      var todo := prs.Keys;
      while todo != {}
        invariant Split(r0.prs.Keys, done, todo) && Valid() && State() == r0
        invariant Adds(old(msgs), msgs, VotesAsked(r0, done))
      {
        var i :| i in todo;
        TakeOne(r0.prs.Keys, done, todo, i);
        VotesNext(r0, done, i);
        if i != id {
          ghost var before := msgs;
          AskVote(i);
          AddsOneMore(old(msgs), before, msgs, VotesAsked(r0, done), VoteMessage(r0, i));
        }
        todo, done := todo - {i}, done + {i};
      }
      TookAll(r0.prs.Keys, done);
    }

    method Campaign()
      requires Valid() && !Spec.Campaign(State()).Panic?
      modifies this, log`committed, log.unstable
      ensures Reaches(Spec.Campaign(old(State())), old(msgs))
    {
      hide Spec.BecomeLeader, Spec.Reset, RaftLog.Valid, RaftLog.Log, Adds;
      BecomeCandidate();
      var granted := Poll(id, true);
      if |prs| / 2 + 1 == granted {
        BecomeLeader();
      } else {
        AskVotes();
      }
    }

    // ------------------------------------------------------------ handlers

    method HandleAppendEntries(m: Message)
      requires Valid() && LV.Follow(m.index, m.entries) && !Spec.HandleAppendEntries(State(), m).Panic?
      modifies this`msgs, log`committed, log.unstable
      ensures Reaches(Spec.HandleAppendEntries(old(State()), m), old(msgs))
    {
      hide Spec.MaybeAppend, Adds;
      if m.index < commit {
        Send(Blank(MsgAppResp, m.from, 0, 0).(index := commit));
        return;
      }
      var mlastIndex, ok := log.MaybeAppend(m.index, m.logTerm, m.commit, m.entries);
      if ok {
        Send(Blank(MsgAppResp, m.from, 0, 0).(index := mlastIndex));
      } else {
        Send(Blank(MsgAppResp, m.from, 0, 0).(index := m.index, reject := true, rejectHint := log.LastIndex()));
      }
    }

    method HandleHeartbeat(m: Message)
      requires Valid() && !Spec.HandleHeartbeat(State(), m).Panic?
      modifies this`msgs, log`committed
      ensures Reaches(Spec.HandleHeartbeat(old(State()), m), old(msgs))
    {
      hide Adds;
      log.CommitTo(m.commit);
      Send(Blank(MsgHeartbeatResp, m.from, 0, 0));
    }

    method Restore(s: Snapshot) returns (ok: bool)
      requires Valid()
      requires s.index > log.committed && LV.MatchTerm(log.Log(), s.index, s.term) ==> s.index <= LV.LastIndex(log.Log())
      modifies this`prs, log`committed, log.unstable
      ensures Valid() && ok == (s.index > old(log.committed) && !LV.MatchTerm(old(log.Log()), s.index, s.term))
      ensures State() ==
              if ok then Restored(old(State()), s)
              else old(State()).(committed := Max(old(log.committed), s.index))
    {
      hide LV.MatchTerm, RaftLog.Valid, RaftLog.Log;
      if s.index <= log.committed {
        return false;
      }
      if log.MatchTerm(s.index, s.term) {
        log.CommitTo(s.index);
        return false;
      }
      log.Restore(s);
      RestoreProgress(s.nodes);
      assert prs == Restored(old(State()), s).prs;
      return true;
    }

    method RestoreProgress(nodes: set<NodeId>)
      requires Valid()
      modifies this`prs
      ensures prs == map n | n in nodes ::
                       Fresh(if n == id then LV.LastIndex(log.Log()) else 0, LV.LastIndex(log.Log()) + 1, maxInflight)
    {
      hide RaftLog.Valid, RaftLog.Log;
      var last := log.LastIndex();
      prs := map[];
      var todo := nodes;
      while todo != {}
        invariant todo <= nodes && prs.Keys == nodes - todo
        invariant forall n | n in prs :: prs[n] == Fresh(if n == id then last else 0, last + 1, maxInflight)
      {
        var n :| n in todo;
        var next := last + 1;
        var matched := if n == id then next - 1 else 0;
        prs := prs[n := Fresh(matched, next, maxInflight)];
        todo := todo - {n};
      }
    }

    method HandleSnapshot(m: Message)
      requires Valid() && !Spec.HandleSnapshot(State(), m).Panic?
      modifies this`prs, this`msgs, log`committed, log.unstable
      ensures Reaches(Spec.HandleSnapshot(old(State()), m), old(msgs))
    {
      hide Adds, LV.MatchTerm, RaftLog.Valid, RaftLog.Log;
      assert m.snapshot.index > log.committed && LV.MatchTerm(log.Log(), m.snapshot.index, m.snapshot.term) ==>
               !Spec.CommitTo(log.Log(), log.committed, m.snapshot.index).LogPanic?;
      var ok := Restore(m.snapshot);
      if ok {
        Send(Blank(MsgAppResp, m.from, 0, 0).(index := log.LastIndex()));
      } else {
        Send(Blank(MsgAppResp, m.from, 0, 0).(index := log.committed));
      }
    }

    // ------------------------------------------------------------ stepping

    method LeaderRejected(m: Message)
      requires Valid() && m.from in prs && !Spec.LeaderRejected(State(), m).Panic?
      modifies this`prs, this`msgs
      ensures Reaches(Spec.LeaderRejected(old(State()), m), old(msgs))
    {
      hide Spec.SendAppend;
      AddsNothing(msgs);
      var pr := prs[m.from];
      if DecrApplies(pr, m.index) {
        pr := MaybeDecrTo(pr, m.index, m.rejectHint);
        if pr.state == Replicate {
          pr := BecomeProbe(pr);
        }
        prs := prs[m.from := pr];
        SendAppend(m.from);
      }
    }

    method LeaderAccepted(m: Message)
      requires Valid() && m.from in prs && !Spec.LeaderAccepted(State(), m).Panic?
      modifies this`prs, this`msgs, log`committed
      ensures Reaches(Spec.LeaderAccepted(old(State()), m), old(msgs))
    {
      hide Spec.SendAppend, Spec.BcastAppend, Spec.MaybeCommit;
      AddsNothing(msgs);
      var pr := prs[m.from];
      var oldPaused := IsPaused(pr);
      var updated := pr.matched < m.index;
      pr := MaybeUpdate(pr, m.index);
      if updated {
        if pr.state == Probe {
          pr := BecomeReplicate(pr);
        } else if pr.state == Snapshotting && pr.matched >= pr.pending {
          pr := BecomeProbe(pr);
        } else if pr.state == Replicate {
          pr := pr.(ins := FreeTo(pr.ins, m.index));
        }
        prs := prs[m.from := pr];
        var ok := MaybeCommit();
        CommitSendsNothing(old(State()).(prs := prs));
        if ok {
          BcastAppend();
        } else if oldPaused {
          SendAppend(m.from);
        }
      } else {
        prs := prs[m.from := pr];
      }
    }

    method LeaderHeartbeatResp(m: Message)
      requires Valid() && m.from in prs && !Spec.LeaderHeartbeatResp(State(), m).Panic?
      modifies this`prs, this`msgs
      ensures Reaches(Spec.LeaderHeartbeatResp(old(State()), m), old(msgs))
    {
      hide Spec.SendAppend;
      AddsNothing(msgs);
      var pr := prs[m.from];
      if pr.state == Replicate && Full(pr) {
        pr := pr.(ins := FreeTo(pr.ins, pr.ins[0]));
      }
      prs := prs[m.from := pr];
      if pr.matched < log.LastIndex() {
        SendAppend(m.from);
      }
    }

    method LeaderProgress(m: Message)
      requires Valid() && m.from in prs && (m.kind.MsgSnapStatus? || m.kind.MsgUnreachable?)
      modifies this`prs
      ensures Reaches(if m.kind.MsgSnapStatus? then Spec.LeaderSnapStatus(old(State()), m)
                      else Spec.LeaderUnreachable(old(State()), m), old(msgs))
    {
      AddsNothing(msgs);
      var pr := prs[m.from];
      if m.kind.MsgSnapStatus? {
        if pr.state != Snapshotting {
          return;
        }
        if !m.reject {
          pr := BecomeProbe(pr);
        } else {
          pr := BecomeProbe(pr.(pending := 0));
        }
        pr := pr.(paused := true);
      } else if pr.state == Replicate {
        pr := BecomeProbe(pr);
      }
      prs := prs[m.from := pr];
    }

    method Propose(m: Message)
      requires Valid() && m.kind.MsgProp? && !Spec.StepLeader(State(), m).Panic?
      modifies this`prs, this`msgs, log`committed, log.unstable
      ensures Reaches(Spec.StepLeader(old(State()), m), old(msgs))
    {
      hide Spec.AppendEntry, Spec.BcastAppend;
      AddsNothing(msgs);
      if id !in prs {
        return;
      }
      EntrySendsNothing(State(), m.entries);
      AppendEntry(m.entries);
      BcastAppend();
    }

    method StepLeader(m: Message)
      requires Valid() && !Spec.StepLeader(State(), m).Panic?
      modifies this`prs, this`msgs, log`committed, log.unstable
      ensures Reaches(Spec.StepLeader(old(State()), m), old(msgs))
    {
      hide Spec.AppendEntry, Spec.BcastAppend, Spec.LeaderRejected, Spec.LeaderAccepted, Spec.LeaderHeartbeatResp,
           Spec.LeaderSnapStatus, Spec.LeaderUnreachable, Spec.BcastHeartbeat;
      AddsNothing(msgs);
      match m.kind {
        case MsgBeat => BcastHeartbeat();
        case MsgProp => Propose(m);
        case MsgAppResp =>
          if m.reject {
            LeaderRejected(m);
          } else {
            LeaderAccepted(m);
          }
        case MsgHeartbeatResp => LeaderHeartbeatResp(m);
        case MsgVote => Send(Blank(MsgVoteResp, m.from, 0, 0).(reject := true));
        case MsgSnapStatus => LeaderProgress(m);
        case MsgUnreachable => LeaderProgress(m);
        case _ =>
      }
    }

    method CandidateVoteResp(m: Message)
      requires Valid() && !Spec.CandidateVoteResp(State(), m).Panic?
      modifies this, log`committed, log.unstable
      ensures Reaches(Spec.CandidateVoteResp(old(State()), m), old(msgs))
    {
      hide Spec.BecomeLeader, Spec.BcastAppend, Spec.BecomeFollower, RaftLog.Valid, RaftLog.Log, Granted;
      AddsNothing(msgs);
      var gr := Poll(m.from, !m.reject);
      var q := |prs| / 2 + 1;
      if q == gr {
        CrownSendsNothing(State());
        BecomeLeader();
        BcastAppend();
      } else if q == |votes| - gr {
        BecomeFollower(term, NONE);
      }
    }

    method StepCandidate(m: Message)
      requires Valid() && (m.kind.MsgApp? ==> LV.Follow(m.index, m.entries)) && !Spec.StepCandidate(State(), m).Panic?
      modifies this, log`committed, log.unstable
      ensures Reaches(Spec.StepCandidate(old(State()), m), old(msgs))
    {
      hide Spec.HandleAppendEntries, Spec.HandleHeartbeat, Spec.HandleSnapshot, Spec.CandidateVoteResp,
           Spec.BecomeFollower, Adds;
      AddsNothing(msgs);
      match m.kind {
        case MsgApp =>
          BecomeFollower(term, m.from);
          HandleAppendEntries(m);
        case MsgHeartbeat =>
          BecomeFollower(term, m.from);
          HandleHeartbeat(m);
        case MsgSnap =>
          BecomeFollower(m.term, m.from);
          HandleSnapshot(m);
        case MsgVote => Send(Blank(MsgVoteResp, m.from, 0, 0).(reject := true));
        case MsgVoteResp => CandidateVoteResp(m);
        case _ =>
      }
    }

    method StepFollower(m: Message)
      requires Valid() && (m.kind.MsgApp? ==> LV.Follow(m.index, m.entries)) && !Spec.StepFollower(State(), m).Panic?
      modifies this, log`committed, log.unstable
      ensures Reaches(Spec.StepFollower(old(State()), m), old(msgs))
    {
      hide Spec.HandleAppendEntries, Spec.HandleHeartbeat, Spec.HandleSnapshot, Adds;
      AddsNothing(msgs);
      match m.kind {
        case MsgProp =>
          if lead == NONE {
            return;
          }
          Send(m.(to := lead));
        case MsgApp =>
          lead := m.from;
          HandleAppendEntries(m);
        case MsgHeartbeat =>
          lead := m.from;
          HandleHeartbeat(m);
        case MsgSnap => HandleSnapshot(m);
        case MsgVote =>
          if (vote == NONE || vote == m.from) && log.IsUpToDate(m.index, m.logTerm) {
            vote := m.from;
            Send(Blank(MsgVoteResp, m.from, 0, 0));
          } else {
            Send(Blank(MsgVoteResp, m.from, 0, 0).(reject := true));
          }
        case _ =>
      }
    }

    /** What the node does with any message is what the specification says. */
    method Step(m: Message)
      requires Valid() && (m.kind.MsgApp? ==> LV.Follow(m.index, m.entries)) && !Spec.Step(State(), m).Panic?
      modifies this, log`committed, log.unstable
      ensures Reaches(Spec.Step(old(State()), m), old(msgs))
    {
      hide Spec.StepLeader, Spec.StepCandidate, Spec.StepFollower, Spec.Campaign, Spec.BecomeFollower, Adds;
      AddsNothing(msgs);
      if m.kind == MsgHup {
        Campaign();
        commit := log.committed;
        return;
      }
      if m.term == 0 {
      } else if m.term > term {
        var l := m.from;
        if m.kind == MsgVote {
          l := NONE;
        }
        BecomeFollower(m.term, l);
      } else if m.term < term {
        return;
      }
      match role {
        case Leader => StepLeader(m);
        case Candidate => StepCandidate(m);
        case Follower => StepFollower(m);
      }
      commit := log.committed;
    }
  }

  // ---------------------------------------------------------------- loops over peers

  /** A loop over the keys of a map: which it has visited and which are left. */
  ghost predicate Split(all: set<NodeId>, done: set<NodeId>, todo: set<NodeId>) {
    done + todo == all && done !! todo
  }

  lemma TakeNone(all: set<NodeId>)
    ensures Split(all, {}, all)
  {
  }

  lemma TakeOne(all: set<NodeId>, done: set<NodeId>, todo: set<NodeId>, i: NodeId)
    requires Split(all, done, todo) && i in todo
    ensures Split(all, done + {i}, todo - {i}) && i in all && i !in done
  {
  }

  lemma TookAll(all: set<NodeId>, done: set<NodeId>)
    requires Split(all, done, {})
    ensures done == all
  {
  }

  ghost function SentTo(r: Raft, ids: set<NodeId>): set<Message>
    requires ids <= r.prs.Keys
  {
    set to, m | to in ids && to != r.id && AppendTo(r, to).Sent? && m in AppendTo(r, to).msgs :: m
  }

  /** A broadcast that has reached the peers in done. */
  ghost predicate SentSoFar(r0: Raft, done: set<NodeId>, r: Raft) {
    && r == r0.(prs := r.prs) && r.prs.Keys == r0.prs.Keys
    && forall i | i in r.prs ::
         if i !in done || i == r0.id then r.prs[i] == r0.prs[i]
         else AppendTo(r0, i).Sent? && r.prs[i] == AppendTo(r0, i).pr
  }

  lemma SentNone(r: Raft)
    ensures SentSoFar(r, {}, r) && SentTo(r, {}) == {}
  {
  }

  /** What goes to a peer depends on that peer's record alone. */
  lemma SendsNext(r0: Raft, done: set<NodeId>, r: Raft, i: NodeId)
    requires SentSoFar(r0, done, r) && AllSend(r0) && done <= r0.prs.Keys && i in r0.prs && i !in done
    ensures if i == r0.id then SentSoFar(r0, done + {i}, r) && SentTo(r0, done + {i}) == SentTo(r0, done)
            else
              && AppendTo(r0, i).Sent? && SendAppend(r, i) == Done(r.(prs := r.prs[i := AppendTo(r0, i).pr]), AppendTo(r0, i).msgs)
              && SentSoFar(r0, done + {i}, r.(prs := r.prs[i := AppendTo(r0, i).pr]))
              && SentTo(r0, done + {i}) == SentTo(r0, done) + AppendTo(r0, i).msgs
  {
    if i != r0.id {
      assert AppendTo(r, i) == AppendTo(r0, i);
    }
    hide AppendTo;
  }

  lemma SentAll(r0: Raft, r: Raft)
    requires AllSend(r0) && SentSoFar(r0, r0.prs.Keys, r)
    ensures BcastAppend(r0) == Done(r, SentTo(r0, r0.prs.Keys))
  {
    hide AppendTo;
    assert r.prs == BcastAppend(r0).r.prs;
  }

  /** Nothing goes to a paused peer. */
  lemma PausedAppend(r: Raft, to: NodeId)
    requires to in r.prs
    ensures IsPaused(r.prs[to]) ==> AppendTo(r, to) == Sent(r.prs[to], {}) && r.prs[to := r.prs[to]] == r.prs
  {
  }

  lemma AppendToPeer(r: Raft, to: NodeId, m: Message)
    requires to in r.prs && AppendTo(r, to).Sent? && m in AppendTo(r, to).msgs
    ensures m.to == to
  {
  }

  lemma AddsPeer(r: Raft, a: seq<Message>, b: seq<Message>, c: seq<Message>, ids: set<NodeId>, i: NodeId)
    requires ids <= r.prs.Keys && i in r.prs && i !in ids && AppendTo(r, i).Sent?
    requires Adds(a, b, SentTo(r, ids)) && Adds(b, c, AppendTo(r, i).msgs)
    ensures Adds(a, c, SentTo(r, ids) + AppendTo(r, i).msgs)
  {
    hide AppendTo, Adds;
    forall m | m in SentTo(r, ids) ensures m !in AppendTo(r, i).msgs {
      var to :| to in ids && AppendTo(r, to).Sent? && m in AppendTo(r, to).msgs;
      AppendToPeer(r, to, m);
      if m in AppendTo(r, i).msgs {
        AppendToPeer(r, i, m);
      }
    }
    AddsMore(a, b, c, SentTo(r, ids), AppendTo(r, i).msgs);
  }

  ghost function HeartbeatsTo(r: Raft, ids: set<NodeId>): set<Message>
    requires ids <= r.prs.Keys
  {
    set to | to in ids && to != r.id :: HeartbeatMessage(r, to)
  }

  /** Every peer's record made new, as on a change of role. */
  function Restart(prs: map<NodeId, Progress>, id: NodeId, last: nat, maxInflight: nat): map<NodeId, Progress> {
    map i | i in prs :: Fresh(if i == id then last else 0, last + 1, maxInflight)
  }

  function Resume(r: Raft, i: NodeId): Raft
    requires i in r.prs
  {
    r.(prs := r.prs[i := r.prs[i].(paused := false)])
  }

  ghost predicate Resumed(r0: Raft, done: set<NodeId>, r: Raft) {
    && r == r0.(prs := r.prs) && r.prs.Keys == r0.prs.Keys
    && forall i | i in r.prs ::
         r.prs[i] == if i !in done || i == r0.id then r0.prs[i] else r0.prs[i].(paused := false)
  }

  lemma HeartbeatsNone(r: Raft)
    ensures Resumed(r, {}, r) && HeartbeatsTo(r, {}) == {}
  {
  }

  lemma HeartbeatsNext(r0: Raft, done: set<NodeId>, r: Raft, i: NodeId)
    requires Resumed(r0, done, r) && done <= r0.prs.Keys && i in r0.prs && i !in done
    ensures i in r.prs
    ensures if i == r0.id then Resumed(r0, done + {i}, r) && HeartbeatsTo(r0, done + {i}) == HeartbeatsTo(r0, done)
            else
              && Resumed(r0, done + {i}, Resume(r, i))
              && HeartbeatsTo(r0, done + {i}) == HeartbeatsTo(r0, done) + {HeartbeatMessage(r0, i)}
              && HeartbeatMessage(r0, i) !in HeartbeatsTo(r0, done) && HeartbeatMessage(r, i) == HeartbeatMessage(r0, i)
  {
  }

  lemma HeartbeatsAll(r0: Raft, r: Raft)
    requires Resumed(r0, r0.prs.Keys, r)
    ensures BcastHeartbeat(r0) == Done(r, HeartbeatsTo(r0, r0.prs.Keys))
  {
    assert r.prs == BcastHeartbeat(r0).r.prs;
  }

  ghost function VotesAsked(r: Raft, ids: set<NodeId>): set<Message> {
    set to | to in ids && to != r.id :: VoteMessage(r, to)
  }

  lemma VotesNone(r: Raft)
    ensures VotesAsked(r, {}) == {}
  {
  }

  lemma VotesNext(r: Raft, done: set<NodeId>, i: NodeId)
    requires i !in done
    ensures VotesAsked(r, done + {i}) == VotesAsked(r, done) + (if i == r.id then {} else {VoteMessage(r, i)})
    ensures VoteMessage(r, i) !in VotesAsked(r, done)
  {
  }

  ghost function GrantedAmong(votes: map<NodeId, bool>, ids: set<NodeId>): set<NodeId> {
    set i | i in ids && i in votes && votes[i]
  }

  lemma GrantedNext(votes: map<NodeId, bool>, done: set<NodeId>, i: NodeId)
    requires i !in done && i in votes
    ensures |GrantedAmong(votes, done + {i})| == |GrantedAmong(votes, done)| + if votes[i] then 1 else 0
  {
    assert GrantedAmong(votes, done + {i}) == GrantedAmong(votes, done) + if votes[i] then {i} else {};
  }

  method CountGranted(votes: map<NodeId, bool>) returns (granted: nat)
    ensures granted == |GrantedAmong(votes, votes.Keys)| && granted <= |votes|
  {
    hide GrantedAmong, Split;
    granted := 0;
    var todo := votes.Keys;
    ghost var done: set<NodeId> := {};
    GrantedNone(votes);
    TakeNone(votes.Keys);
    while todo != {}
      invariant Split(votes.Keys, done, todo)
      invariant granted == |GrantedAmong(votes, done)|
    {
      var i :| i in todo;
      TakeOne(votes.Keys, done, todo, i);
      GrantedNext(votes, done, i);
      if votes[i] {
        granted := granted + 1;
      }
      todo, done := todo - {i}, done + {i};
    }
    TookAll(votes.Keys, done);
    GrantedAll(votes);
  }

  lemma GrantedNone(votes: map<NodeId, bool>)
    ensures GrantedAmong(votes, {}) == {}
  {
  }

  lemma GrantedIs(r: Raft)
    ensures Granted(r) == GrantedAmong(r.votes, r.votes.Keys)
  {
  }

  lemma GrantedAll(votes: map<NodeId, bool>)
    ensures |GrantedAmong(votes, votes.Keys)| <= |votes|
  {
    Quorums.SubsetSize(GrantedAmong(votes, votes.Keys), votes.Keys);
    assert |votes.Keys| == |votes|;
  }

  lemma CommitSendsNothing(r: Raft)
    ensures Spec.MaybeCommit(r).Done? ==> Spec.MaybeCommit(r).out == {}
  {
  }

  lemma EntrySendsNothing(r: Raft, es: seq<Entry>)
    ensures Spec.AppendEntry(r, es).Done? ==> Spec.AppendEntry(r, es).out == {}
  {
  }

  lemma CrownSendsNothing(r: Raft)
    ensures Spec.BecomeLeader(r).Done? ==> Spec.BecomeLeader(r).out == {}
  {
    EntrySendsNothing(Spec.Reset(r, r.term).(lead := r.id, role := Leader), [Entry(0, 0, Nil)]);
  }
}
