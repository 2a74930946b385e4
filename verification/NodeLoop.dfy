/** The event loop of a node: one raft node, and what is remembered of the last batch. */
module NodeLoops {
  import opened Types
  import opened LogView
  import opened NodeSpec
  import opened StepFacts
  import opened Storage
  import opened TwoTier
  import opened RaftNodes
  import opened RaftLogs
  import opened Delivery
  import Cluster
  import ClusterSafety
  import ProtocolLogs

  /** Whom the node follows and what it is, as its application last heard. */
  datatype SoftState = SoftState(lead: NodeId, role: Role)

  datatype Ready = Ready(
    softState: Option<SoftState>,
    hardState: HardState,
    entries: seq<Entry>,
    snapshot: Snapshot,
    committedEntries: seq<Entry>,
    messages: seq<Message>)

  class NodeLoop {
    const r: RaftNode
    var prevSoft: SoftState
    var prevHard: HardState
    var prevLastUnstablei: nat
    var prevLastUnstablet: nat
    var havePrevLastUnstablei: bool
    var prevSnapi: nat
    var awaiting: bool
    ghost var start: nat
    ghost var stream: seq<Item>

    ghost function Value(): Loop
      requires r.Valid()
      reads this, r, r.log, r.log.storage, r.log.unstable
    {
      Loop(r.State(), prevHard, awaiting, prevSnapi)
    }

    ghost predicate Valid()
      reads this, r, r.log, r.log.storage, r.log.unstable
    {
      r.Valid() && Good(Value(), start, stream)
    }

    constructor (r: RaftNode)
      requires r.Valid() && Starts(Loop(r.State(), EmptyState, false, 0))
      ensures Valid() && this.r == r && start == r.log.applied && stream == [] && prevSoft == SoftState(r.lead, r.role)
    {
      this.r := r;
      this.prevSoft := SoftState(r.lead, r.role);
      this.prevHard := EmptyState;
      this.prevLastUnstablei, this.prevLastUnstablet := 0, 0;
      this.havePrevLastUnstablei := false;
      this.prevSnapi := 0;
      this.awaiting := false;
      this.start := r.log.applied;
      this.stream := [];
      new;
      StartsGood(Value());
    }

    /** A message from the network, a proposal or a tick. */
    method Receive(m: Message)
      requires Valid() && Proper(m) && (Filtered(r.State(), m) || !NodeSpec.Step(r.State(), m).Panic?)
      modifies r, r.log`committed, r.log.unstable
      ensures Valid() && Went(Value(), []) == After(old(Value()), Input(m))
    {
      hide Good, NodeSpec.Step, RaftLog.Valid, RaftLog.Log;
      EventKeeps(Value(), start, stream, Input(m));
      assert stream + [] == stream;
      if m.from in r.prs || !IsResponse(m.kind) {
        r.Step(m);
      }
    }

    /** What is there to be stored, sent and applied. */
    method NewReady() returns (rd: Ready)
      requires r.Valid() && Sane(r.State())
      ensures rd.softState == if SoftState(r.lead, r.role) == prevSoft then None else Some(SoftState(r.lead, r.role))
      ensures rd.hardState == if Hard(r.State()) == prevHard then EmptyState else Hard(r.State())
      ensures rd.entries == r.log.unstable.entries && rd.committedEntries == NextEnts(r.State()) && rd.messages == r.msgs
      ensures rd.snapshot == if r.log.unstable.snapshot.Some? then r.log.unstable.snapshot.value else NoSnapshot
    {
      var ents := r.log.NextEnts();
      assert ents == NextEnts(r.State());
      hide NextEnts, Sane, RaftLog.Valid, RaftLog.Log;
      var soft := SoftState(r.lead, r.role);
      var hard := HardState(r.term, r.vote, r.commit);
      rd := Ready(if soft == prevSoft then None else Some(soft), if hard == prevHard then EmptyState else hard,
                  r.log.unstable.entries,
                  if r.log.unstable.snapshot.Some? then r.log.unstable.snapshot.value else NoSnapshot, ents, r.msgs);
    }

    method Remember(rd: Ready)
      modifies this`prevSoft, this`prevHard, this`prevSnapi, this`prevLastUnstablei, this`prevLastUnstablet, this`havePrevLastUnstablei
      ensures prevSoft == if rd.softState.Some? then rd.softState.value else old(prevSoft)
      ensures prevHard == if rd.hardState != EmptyState then rd.hardState else old(prevHard)
      ensures prevSnapi == if rd.snapshot.index != 0 then rd.snapshot.index else old(prevSnapi)
      ensures var n := |rd.entries|;
              n > 0 ==> havePrevLastUnstablei && prevLastUnstablei == rd.entries[n - 1].index && prevLastUnstablet == rd.entries[n - 1].term
      ensures rd.entries == [] ==>
                havePrevLastUnstablei == old(havePrevLastUnstablei) && prevLastUnstablei == old(prevLastUnstablei)
                && prevLastUnstablet == old(prevLastUnstablet)
    {
      if rd.softState.Some? {
        prevSoft := rd.softState.value;
      }
      if |rd.entries| > 0 {
        prevLastUnstablei := rd.entries[|rd.entries| - 1].index;
        prevLastUnstablet := rd.entries[|rd.entries| - 1].term;
        havePrevLastUnstablei := true;
      }
      if rd.hardState != EmptyState {
        prevHard := rd.hardState;
      }
      if rd.snapshot.index != 0 {
        prevSnapi := rd.snapshot.index;
      }
    }

    /** Hand the batch over and wait for it to be taken. */
    method TakeReady() returns (rd: Ready)
      requires Valid() && !awaiting
      modifies this, r`msgs
      ensures Valid() && Went(Value(), Batch(old(r.State()))) == After(old(Value()), Delivery.TakeReady)
      ensures stream == old(stream) + Batch(r.State()) && start == old(start)
      ensures rd.committedEntries == NextEnts(r.State()) && rd.entries == r.log.unstable.entries
      ensures rd.snapshot == (if r.log.unstable.snapshot.Some? then r.log.unstable.snapshot.value else NoSnapshot)
      ensures rd.messages == old(r.msgs) && r.msgs == []
      ensures prevSoft == SoftState(r.lead, r.role) && (rd.softState.Some? <==> prevSoft != old(prevSoft))
      ensures prevHard == if rd.hardState == EmptyState then old(prevHard) else rd.hardState
      ensures rd.entries != [] ==>
                havePrevLastUnstablei && Holds(r.log.Tiered(), prevLastUnstablei, prevLastUnstablet)
                && prevLastUnstablei == Last(r.State())
    {
      hide Good, Batch, NextEnts, Sane, RaftLog.Valid, RaftLog.Log, LogSane;
      SaneNow();
      EventKeeps(Value(), start, stream, Delivery.TakeReady);
      rd := NewReady();
      stream := stream + Batch(r.State());
      Remember(rd);
      r.msgs := [];
      awaiting := true;
    }

    lemma SaneNow()
      requires Valid()
      ensures Sane(r.State()) && (r.log.unstable.snapshot.Some? ==> r.log.unstable.snapshot.value.index == r.State().view.off)
      ensures !awaiting && r.log.unstable.snapshot.Some? ==> r.State().view.off > 0
      ensures !awaiting ==> After(Value(), Delivery.TakeReady) == Went(AfterReady(Value()), Batch(r.State()))
      ensures var es := r.log.unstable.entries;
              es != [] ==> es[|es| - 1].index == Last(r.State()) == r.log.unstable.offset + |es| - 1
    {
    }

    /** The application has stored the batch and taken its entries: what it stored may be
        forgotten, and the applied index moves up. */
    method Advance()
      requires Valid() && awaiting
      requires SafeToForget(r.log.Tiered(), havePrevLastUnstablei && Holds(r.log.Tiered(), prevLastUnstablei, prevLastUnstablet),
                            prevLastUnstablei, prevSnapi)
      requires SnapshotAt(r.log.Tiered(), prevSnapi) ==> r.log.storage.snapshot == r.log.unstable.snapshot.value
      modifies this`havePrevLastUnstablei, this`awaiting, r.log`applied, r.log.unstable
      ensures Valid() && Went(Value(), []) == After(old(Value()), Delivery.Advance)
      ensures stream == old(stream) && start == old(start)
      ensures r.log.Tiered() == old(Forgotten(r.log.Tiered(),
                havePrevLastUnstablei && Holds(r.log.Tiered(), prevLastUnstablei, prevLastUnstablet), prevLastUnstablei, prevSnapi))
    {
      hide Good, SafeToForget;
      EventNeverPanics();
      assert stream + [] == stream;
      if prevHard.commit != 0 {
        r.log.AppliedTo(prevHard.commit);
      }
      r.log.Forget(havePrevLastUnstablei, prevLastUnstablei, prevLastUnstablet, prevSnapi);
      havePrevLastUnstablei := false;
      awaiting := false;
    }

    /** Write a batch to storage, in the order that the interface asks for. */
    method Write(rd: Ready)
      requires Savable(r.log.Tiered()) && rd.entries == r.log.unstable.entries
      requires rd.snapshot == (if r.log.unstable.snapshot.Some? then r.log.unstable.snapshot.value else NoSnapshot)
      requires r.log.unstable.snapshot.Some? ==> r.log.unstable.snapshot.value.index != 0
      modifies r.log.storage
      ensures r.log.storage.ents == old(SavedStore(r.log.Tiered()))
      ensures r.log.storage.snapshot == if rd.snapshot.index != 0 then rd.snapshot else old(r.log.storage.snapshot)
      ensures r.log.storage.hardState == if rd.hardState == EmptyState then old(r.log.storage.hardState) else rd.hardState
    {
      if rd.hardState != EmptyState {
        r.log.storage.SetHardState(rd.hardState);
      }
      if rd.snapshot.index != 0 {
        r.log.storage.ApplySnapshot(rd.snapshot);
      }
      r.log.storage.Append(rd.entries);
    }

    /** One whole turn: take a batch, store it, say so. The application then has the batch,
        nothing is left unstable, storage alone holds the log, and its hard state follows. */
    method Serve() returns (rd: Ready)
      requires Valid() && !awaiting && Savable(r.log.Tiered())
      modifies this, r`msgs, r.log`applied, r.log.unstable, r.log.storage
      ensures Valid() && !awaiting && start == old(start) && stream == old(stream) + Batch(old(r.State()))
      ensures Went(Value(), []) == After(old(AfterReady(Value())), Delivery.Advance)
      ensures r.log.unstable.entries == [] && r.log.unstable.snapshot.None?
      ensures var st := r.log.storage.ents;
              |st| >= 1 && r.State().view == View(st[0].index, st[0].term, st[1..])
      ensures r.State().view == old(r.State().view)
      ensures old(r.log.storage.hardState == prevHard) ==> r.log.storage.hardState == prevHard
    {
      hide Good, Batch, Sane, NextEnts, LogSane, SafeToForget, Consistent, ViewOf, SavedStore;
      SaneNow();
      ghost var t := r.log.Tiered();
      rd := TakeReady();
      assert r.log.Tiered() == t;
      SavedTiers(t, prevLastUnstablei, prevSnapi);
      Write(rd);
      assert r.log.Tiered() == t.(st := SavedStore(t));
      Advance();
      AllStored(r.log.Tiered());
    }

    lemma EventNeverPanics()
      requires Valid() && awaiting
      ensures After(Value(), Delivery.Advance).Went? && Good(After(Value(), Delivery.Advance).l, start, stream + [])
    {
      AdvanceNeverPanics(Value(), Position(start, stream));
      EventKeeps(Value(), start, stream, Delivery.Advance);
    }
  }

  /** A node just opened from storage may enter the loop. */
  lemma OpenedStarts(id: NodeId, hs: HardState, st: seq<Entry>, snap: Snapshot, nodes: set<NodeId>, applied: nat,
                     maxInflight: nat, limit: Limit)
    requires StorageOK(st) && CanOpen(hs, st, applied) && maxInflight >= 1
    ensures Starts(Loop(Opened(id, hs, st, snap, nodes, applied, maxInflight, limit), EmptyState, false, 0))
  {
  }

  /** What a node's application has received, as ExactlyOnce describes it. */
  ghost predicate Delivered(r: Raft, start: nat, s: seq<Item>) {
    InOrder(start, s) && FromLog(s, r.view) && Position(start, s) <= r.committed
  }

  lemma DeliveredAt(r: Raft, start: nat, s: seq<Item>, e: Entry)
    requires Delivered(r, start, s) && Ent(e) in s && r.view.off == 0
    ensures 1 <= e.index <= r.committed && e.index <= |r.view.ents| && r.view.ents[e.index - 1] == e
  {
    var k :| 0 <= k < |s| && s[k] == Ent(e);
    assert Placed(start, s, k);
    OrderRises(start, s, k + 1, |s|);
    assert InLog(s[k].e, r.view);
  }

  /** The applications of all nodes receive the same: in every run of a cluster, entries that
      any two nodes have handed over at the same position are equal, at whatever moments. */
  lemma SameDeliveries(u: Cluster.Run, i: nat, j: nat, a: NodeId, b: NodeId,
                       start: nat, s: seq<Item>, start': nat, s': seq<Item>, x: Entry, y: Entry)
    requires Cluster.IsRun(u) && i <= j < |u.states| && a in u.states[i].nodes && b in u.states[j].nodes
    requires Delivered(u.states[i].nodes[a], start, s) && Delivered(u.states[j].nodes[b], start', s')
    requires Ent(x) in s && Ent(y) in s' && x.index == y.index
    ensures x == y
  {
    hide Cluster.IsRun, Delivered;
    ClusterSafety.WholeLogs(u, i, a);
    ClusterSafety.WholeLogs(u, j, b);
    DeliveredAt(u.states[i].nodes[a], start, s, x);
    DeliveredAt(u.states[j].nodes[b], start', s', y);
    ClusterSafety.StateMachineSafety(u, i, j, a, b);
    ProtocolLogs.AgreePoint(u.states[i].nodes[a].view.ents, u.states[j].nodes[b].view.ents,
                            Min(u.states[i].nodes[a].committed, u.states[j].nodes[b].committed), x.index - 1);
  }

  /** In a run of a cluster, the term comparison that precedes forgetting is enough: if the
      node's storage holds the log it had when the batch was taken, and the unstable part
      still has that term at k, then all it has through k is in storage. */
  lemma TermCheckSuffices(u: Cluster.Run, i: nat, j: nat, n: NodeId, t: Tiers, k: nat)
    requires Cluster.IsRun(u) && i <= j < |u.states| && n in u.states[i].nodes && n in u.states[j].nodes
    requires var v := u.states[i].nodes[n].view;
             && Consistent(t) && t.snap.None? && ViewOf(t) == u.states[j].nodes[n].view
             && Stored(t.st, v, k) && 1 <= k && Holds(t, k, TermOf(v, k))
    ensures Written(t, k)
  {
    hide Cluster.IsRun;
    var v := u.states[i].nodes[n].view;
    var v' := u.states[j].nodes[n].view;
    ViewIndexed(t);
    ClusterSafety.WholeLogs(u, i, n);
    ClusterSafety.WholeLogs(u, j, n);
    EntryAt(t, k);
    ClusterSafety.LogMatching(u, i, j, n, n, k);
    AgreeIsSame(v, v', k);
    StillWritten(t, v, k, TermOf(v, k));
  }

  /** A batch may be written and acknowledged at any later moment of a run, whatever the node
      has received in between: the log stays as it is, and whatever the term check then lets
      go is in storage. `ti` are the tiers as the batch was taken, `t` as they are now; storage
      has not changed in between, and taking entries never moves the unstable part up. */
  lemma AcknowledgeLater(u: Cluster.Run, i: nat, j: nat, n: NodeId, ti: Tiers, t: Tiers, snapi: nat)
    requires Cluster.IsRun(u) && i <= j < |u.states| && n in u.states[i].nodes && n in u.states[j].nodes
    requires Savable(ti) && ti.snap.None? && ti.entries != [] && ViewOf(ti) == u.states[i].nodes[n].view
    requires Consistent(t) && t.snap.None? && ViewOf(t) == u.states[j].nodes[n].view
    requires t.st == ti.st && t.offset <= ti.offset && t.entries != []
    ensures var k := ti.offset + |ti.entries| - 1;
            var t' := t.(st := SavedStore(ti));
            && Consistent(t') && ViewOf(t') == ViewOf(t)
            && SafeToForget(t', Holds(t', k, ti.entries[|ti.entries| - 1].term), k, snapi)
  {
    hide Cluster.IsRun;
    var k := ti.offset + |ti.entries| - 1;
    var t' := t.(st := SavedStore(ti));
    StoreAppendView(t, ti.entries);
    SavedIsStored(ti, k);
    if Holds(t', k, ti.entries[|ti.entries| - 1].term) {
      hide ViewOf, Consistent, StoreAppend;
      TermCheckSuffices(u, i, j, n, t', k);
    }
  }

  lemma AgreeIsSame(v: View, v': View, k: nat)
    requires v.off == v'.off == 0 && ProtocolLogs.Agree(v.ents, v'.ents, k)
    ensures SameThrough(v, v', k)
  {
    forall p | 0 < p <= k && p <= LastIndex(v) && p <= LastIndex(v') ensures At(v, p) == At(v', p) {
      ProtocolLogs.AgreePoint(v.ents, v'.ents, k, p - 1);
    }
  }
}
