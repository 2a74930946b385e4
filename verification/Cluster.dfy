/** A cluster of real nodes with fixed membership. The network is the set of all messages
    ever sent: any of them may be delivered at any time, again, in any order, or never. */
module Cluster {
  import opened Types
  import opened LogView
  import opened ProgressSpec
  import opened NodeSpec
  import opened Quorums
  import opened ProtocolLogs
  import opened StepRefinement
  import opened ProtocolReplication

  datatype Group = Group(nodes: map<NodeId, Raft>, net: set<Message>)

  /** What StartNode builds: a follower in the bootstrap term whose log holds the bootstrap
      entries, all of them committed. */
  function Started(id: NodeId, peers: set<NodeId>, boot: nat, start: seq<Entry>, maxInflight: nat, limit: Limit): Raft {
    Raft(id, boot, NONE, |start|, View(0, 0, start), |start|, 0, NoSnapshot, false,
         map p | p in peers :: Fresh(0, |start| + 1, maxInflight),
         Follower, map[], NONE, maxInflight, limit)
  }

  ghost predicate Init(c: Group, boot: nat, start: seq<Entry>) {
    && c.nodes != map[] && NONE !in c.nodes
    && c.net == {}
    && BootLog(boot, start)
    && forall n {:trigger StartsAs(c, n, boot, start)} | n in c.nodes :: StartsAs(c, n, boot, start)
  }

  ghost predicate StartsAs(c: Group, n: NodeId, boot: nat, start: seq<Entry>)
    requires n in c.nodes
  {
    && c.nodes[n].maxInflight >= 1
    && c.nodes[n] == Started(n, c.nodes.Keys, boot, start, c.nodes[n].maxInflight, c.nodes[n].limit)
  }

  datatype Event =
    | Deliver(n: NodeId, m: Message)
    | Local(n: NodeId, m: Message)
    | Restart(n: NodeId, applied: nat)

  ghost predicate Enabled(c: Group, e: Event) {
    && e.n in c.nodes
    && match e
       case Deliver(n, m) => m in c.net && m.to == n && !Trips(c.nodes[n], m)
       case Local(n, m) => FromWithin(m) && !Trips(c.nodes[n], m)
       case Restart(n, a) => a <= c.nodes[n].committed
  }

  ghost function After(c: Group, e: Event): Outcome
    requires Enabled(c, e)
  {
    match e
    case Deliver(n, m) => Step(c.nodes[n], m)
    case Local(n, m) => Step(c.nodes[n], m)
    case Restart(n, a) => Done(Restarted(c.nodes[n], a), {})
  }

  ghost predicate Next(c: Group, e: Event, c': Group) {
    && Enabled(c, e)
    && After(c, e).Done?
    && c' == Group(c.nodes[e.n := After(c, e).r], c.net + After(c, e).out)
  }

  /** A run: states and the events between them, starting from a bootstrapped cluster. */
  datatype Run = Run(states: seq<Group>, events: seq<Event>, boot: nat, start: seq<Entry>)

  ghost predicate IsRun(u: Run) {
    && |u.states| == |u.events| + 1
    && Init(u.states[0], u.boot, u.start)
    && forall k {:trigger StepAt(u, k)} | 0 <= k < |u.events| :: StepAt(u, k)
  }

  ghost predicate StepAt(u: Run, k: nat)
    requires k < |u.events| && k + 1 < |u.states|
  {
    Next(u.states[k], u.events[k], u.states[k + 1])
  }
}
