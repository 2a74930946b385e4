/** How many instances there are, and where, within one synchronised session. */
module LaunchBounds {
  import opened Types
  import opened Text
  import opened Config
  import opened OfferCaches
  import opened SchedulerSpec
  import opened SchedulerSafety

  /** What the bounds are about: the instances, what is on record of them, the launcher. */
  datatype Crew = Crew(
    running: map<string, Node>,
    pending: set<string>,
    alive: set<string>,
    nodes: map<string, Node>,
    used: set<string>,
    pc: Pc)

  function CrewOf(w: World): Crew {
    Crew(w.s.running, w.s.pending, w.alive, w.nodes, w.used, w.pc)
  }

  /** Names of instances that run or are about to. */
  function Instances(c: Crew): set<string> {
    c.running.Keys + c.pending
  }

  /** The launcher is between its first check and its commit. */
  predicate Underway(pc: Pc) {
    pc.Checked? || pc.Popped? || pc.Held? || pc.Cleared?
  }

  /** Every living instance is accounted for, and the launcher has room for one more. */
  ghost predicate Counted(running: set<string>, pending: set<string>, alive: set<string>, pc: Pc, desired: nat) {
    && running !! pending
    && |running| + |pending| <= desired
    && (Underway(pc) ==> pending == {} && |running| < desired)
    && (if pc.Launching? then alive <= running && pending == {pc.n.name} else alive <= running + pending)
  }

  /** Every instance has a node on record that says where it is. */
  ghost predicate Recorded(c: Crew) {
    && Instances(c) <= c.nodes.Keys && Instances(c) <= c.used
    && (forall n | n in c.running :: c.running[n].slave == c.nodes[n].slave)
  }

  /** No two instances share a slave, and the offer in hand is from yet another one. */
  ghost predicate Apart(c: Crew)
    requires Recorded(c)
  {
    && (forall a, b | a in Instances(c) && b in Instances(c) && a != b :: c.nodes[a].slave != c.nodes[b].slave)
    && (c.pc.Held? || c.pc.Cleared? ==> forall n | n in c.running :: c.nodes[n].slave != c.pc.o.slave)
  }

  ghost predicate Fine(c: Crew, desired: nat, single: bool) {
    Counted(c.running.Keys, c.pending, c.alive, c.pc, desired) && Recorded(c) && (single ==> Apart(c))
  }

  ghost predicate Session(w: World) {
    Fine(CrewOf(w), w.s.desired, w.s.single) && Numbered(w)
  }

  // ---------------------------------------------------------------- what can happen to the crew

  function Ended(c: Crew, name: string): Crew {
    c.(running := c.running - {name}, pending := c.pending - {name}, alive := c.alive - {name})
  }

  function Started(c: Crew, n: Node): Crew {
    c.(pending := c.pending - {n.name}, used := c.used + {n.name},
       running := if n.name in c.running then c.running else c.running[n.name := n])
  }

  function Joined(c: Crew, o: Offer, n: Node): Crew {
    c.(pending := c.pending + {n.name}, nodes := c.nodes[n.name := n], used := c.used + {n.name}, pc := Launching(o, n))
  }

  lemma EndedCounted(running: set<string>, pending: set<string>, alive: set<string>, pc: Pc, desired: nat, name: string)
    requires Counted(running, pending, alive, pc, desired) && (pc.Launching? ==> name != pc.n.name)
    ensures Counted(running - {name}, pending - {name}, alive - {name}, pc, desired)
  {
    FewerPending(running, name);
    FewerPending(pending, name);
  }

  /** A living instance moves from pending to running; nothing else can. */
  lemma StartedCounted(running: set<string>, pending: set<string>, alive: set<string>, pc: Pc, desired: nat, name: string)
    requires Counted(running, pending, alive, pc, desired) && name in alive
    ensures Counted(running + {name}, pending - {name}, alive, pc, desired)
    ensures running + {name} + (pending - {name}) == running + pending
    ensures Underway(pc) || pc.Launching? ==> name in running
  {
    if name in running {
      assert running + {name} == running && pending - {name} == pending;
    } else {
      assert name in pending;
      assert |pending - {name}| == |pending| - 1;
    }
  }

  /** With the same records and the launcher where it is, fewer instances stay apart. */
  lemma StillApart(c: Crew, c': Crew)
    requires Recorded(c) && Apart(c) && Recorded(c')
    requires c'.nodes == c.nodes && c'.pc == c.pc && Instances(c') <= Instances(c)
    requires c.pc.Held? || c.pc.Cleared? ==> c'.running.Keys <= c.running.Keys
    ensures Apart(c')
  {
  }

  lemma EndedRecorded(c: Crew, name: string)
    requires Recorded(c)
    ensures Recorded(Ended(c, name)) && Instances(Ended(c, name)) <= Instances(c)
    ensures Ended(c, name).running.Keys == c.running.Keys - {name}
  {
  }

  lemma EndedFine(c: Crew, desired: nat, single: bool, name: string)
    requires Fine(c, desired, single) && (c.pc.Launching? ==> name != c.pc.n.name)
    ensures Fine(Ended(c, name), desired, single)
  {
    hide Counted, Recorded, Apart, Instances;
    EndedCounted(c.running.Keys, c.pending, c.alive, c.pc, desired, name);
    EndedRecorded(c, name);
    if single {
      StillApart(c, Ended(c, name));
    }
  }

  lemma StartedRecorded(c: Crew, n: Node)
    requires Recorded(c) && n.name in c.nodes && n.slave == c.nodes[n.name].slave
    ensures Recorded(Started(c, n)) && Started(c, n).running.Keys == c.running.Keys + {n.name}
    ensures Instances(Started(c, n)) == c.running.Keys + {n.name} + (c.pending - {n.name})
    ensures Instances(c) == c.running.Keys + c.pending
  {
  }

  lemma StartedFine(c: Crew, desired: nat, single: bool, n: Node)
    requires Fine(c, desired, single) && n.name in c.alive && n.name in c.nodes && n.slave == c.nodes[n.name].slave
    ensures Fine(Started(c, n), desired, single)
  {
    hide Counted, Recorded, Apart, Instances;
    StartedCounted(c.running.Keys, c.pending, c.alive, c.pc, desired, n.name);
    StartedRecorded(c, n);
    if single {
      StillApart(c, Started(c, n));
    }
  }

  /** While the launcher is underway no instance can start to run, so that what it checked
      still holds when it commits. */
  lemma JoinedFine(c: Crew, desired: nat, single: bool, n: Node)
    requires Fine(c, desired, single) && c.pc.Cleared? && n.name !in c.used && n.slave == c.pc.o.slave
    ensures Fine(Joined(c, c.pc.o, n), desired, single)
  {
    var c' := Joined(c, c.pc.o, n);
    assert c'.pending == {n.name};
    assert Instances(c') == c.running.Keys + {n.name};
    assert n.name !in c.running;
  }

  lemma LaunchedFine(c: Crew, desired: nat, single: bool)
    requires Fine(c, desired, single) && c.pc.Launching?
    ensures Fine(c.(pc := Idle, alive := c.alive + {c.pc.n.name}), desired, single)
  {
  }

  lemma StandsFine(c: Crew, desired: nat, single: bool, pc: Pc)
    requires Fine(c, desired, single) && !c.pc.Launching? && !pc.Launching?
    requires Underway(pc) ==> c.pending == {} && |c.running.Keys| < desired
    requires pc.Held? || pc.Cleared? ==> single ==> forall n | n in c.running :: c.running[n].slave != pc.o.slave
    ensures Fine(c.(pc := pc), desired, single)
  {
  }

  // ---------------------------------------------------------------- events

  /** Mesos reports RUNNING only for a living instance and from where it was launched, and
      reports nothing about an instance before it has been handed over. */
  predicate Truthful(w: World, e: Event) {
    e.Status? && Parse(e.taskId).Some? ==>
      var name := Parse(e.taskId).value.name;
      && (e.report.Running? ==> name in w.alive && name in w.nodes && e.slave == w.nodes[name].slave)
      && (e.report.Terminal? && w.pc.Launching? ==> name != w.pc.n.name)
  }

  predicate InSession(w: World, e: Event) {
    Enabled(w, e) && !e.Register? && Truthful(w, e) && !Overflows(w, e)
  }

  lemma StatusCrew(w: World, taskId: string, slave: string, report: Report, saved: bool)
    ensures var w' := Reported(w, taskId, slave, report, saved);
            && w'.s.desired == w.s.desired && w'.s.single == w.s.single
            && CrewOf(w') == match (Parse(taskId), report)
                             case (Some(n), Terminal) => Ended(CrewOf(w), n.name)
                             case (Some(n), Running) => Started(CrewOf(w), n.(slave := slave))
                             case _ => CrewOf(w)
  {
    hide Parse, Raised;
  }

  lemma StatusFine(w: World, e: Event)
    requires Fine(CrewOf(w), w.s.desired, w.s.single) && e.Status? && Truthful(w, e)
    ensures var w' := Reported(w, e.taskId, e.slave, e.report, e.saved); Fine(CrewOf(w'), w'.s.desired, w'.s.single)
  {
    hide Parse, Reported, Fine, Ended, Started;
    StatusCrew(w, e.taskId, e.slave, e.report, e.saved);
    if Parse(e.taskId).Some? {
      var n := Parse(e.taskId).value;
      if e.report.Terminal? {
        EndedFine(CrewOf(w), w.s.desired, w.s.single, n.name);
      } else if e.report.Running? {
        StartedFine(CrewOf(w), w.s.desired, w.s.single, n.(slave := e.slave));
      }
    }
  }

  /** What holds of the crew while the launcher is underway. */
  lemma UnderwayHas(c: Crew, desired: nat, single: bool)
    requires Fine(c, desired, single)
    ensures Underway(c.pc) ==> c.pending == {} && |c.running.Keys| < desired
    ensures (c.pc.Held? || c.pc.Cleared?) && single ==> forall n | n in c.running :: c.running[n].slave != c.pc.o.slave
  {
  }

  lemma CommitFine(w: World, ok: bool)
    requires Session(w) && InSession(w, Commit(ok))
    ensures var w' := After(w, Commit(ok)); Fine(CrewOf(w'), w.s.desired, w.s.single)
  {
    NewNameIsFresh(w, w.pc.o);
    assert NewNode(w.s, w.pc.o).slave == w.pc.o.slave;
    hide NewNode, Fine, Numbered, Overflows, Truthful;
    if ok {
      JoinedFine(CrewOf(w), w.s.desired, w.s.single, NewNode(w.s, w.pc.o));
    } else {
      StandsFine(CrewOf(w), w.s.desired, w.s.single, Idle);
    }
  }

  /** What the launcher's checks have established where it stands next. */
  lemma NextPc(w: World, e: Event)
    requires Enabled(w, e) && (e.Check? || e.Pop? || e.Validate? || e.Recheck?)
    requires Underway(w.pc) ==> w.s.pending == {} && |w.s.running.Keys| < w.s.desired
    requires w.pc.Held? && w.s.single ==> forall n | n in w.s.running :: w.s.running[n].slave != w.pc.o.slave
    ensures var pc := AfterLaunch(w, e).pc;
            && CrewOf(AfterLaunch(w, e)) == CrewOf(w).(pc := pc) && !pc.Launching? && !w.pc.Launching?
            && (Underway(pc) ==> w.s.pending == {} && |w.s.running.Keys| < w.s.desired)
            && ((pc.Held? || pc.Cleared?) && w.s.single ==> forall n | n in w.s.running :: w.s.running[n].slave != pc.o.slave)
  {
    assert |w.s.running.Keys| == |w.s.running|;
  }

  lemma PcFine(w: World, e: Event)
    requires Fine(CrewOf(w), w.s.desired, w.s.single) && Enabled(w, e) && (e.Check? || e.Pop? || e.Validate? || e.Recheck?)
    ensures var w' := AfterLaunch(w, e); Fine(CrewOf(w'), w.s.desired, w.s.single)
  {
    hide Fine, AfterLaunch;
    UnderwayHas(CrewOf(w), w.s.desired, w.s.single);
    NextPc(w, e);
    StandsFine(CrewOf(w), w.s.desired, w.s.single, AfterLaunch(w, e).pc);
  }

  lemma LaunchFine(w: World, e: Event)
    requires Session(w) && InSession(w, e) && IsLaunchEvent(e)
    ensures var w' := After(w, e); Fine(CrewOf(w'), w'.s.desired, w'.s.single)
  {
    hide Fine, Numbered, Overflows, Truthful, UsesSlave, CanLaunch, NewNode;
    LaunchEventKeeps(w, e);
    match e {
      case Commit(ok) => CommitFine(w, ok);
      case Launch => LaunchedFine(CrewOf(w), w.s.desired, w.s.single);
      case _ => PcFine(w, e);
    }
  }

  lemma StepSession(w: World, e: Event)
    requires Session(w) && InSession(w, e)
    ensures Session(After(w, e))
  {
    StepNumbered(w, e);
    hide AfterLaunch, Reported, Truthful, Overflows, Fine, Numbered;
    if e.Status? {
      StatusFine(w, e);
    } else if IsLaunchEvent(e) {
      LaunchFine(w, e);
    } else if IsOfferEvent(e) {
      OfferEventKeeps(w, e);
    }
  }

  // ---------------------------------------------------------------- whole sessions

  ghost predicate IsSession(u: Run) {
    && Steps(u) && Session(u.states[0])
    && forall k {:trigger SessionEvent(u, k)} | 0 <= k < |u.events| :: SessionEvent(u, k)
  }

  predicate SessionEvent(u: Run, k: nat)
    requires k < |u.events| && k < |u.states|
  {
    InSession(u.states[k], u.events[k])
  }

  lemma SessionStepAt(u: Run, k: nat)
    requires IsSession(u) && k < |u.events| && Session(u.states[k])
    ensures k + 1 < |u.states| && Session(u.states[k + 1])
  {
    hide Session, After, Enabled, InSession;
    assert StepAt(u, k);
    assert SessionEvent(u, k);
    StepSession(u.states[k], u.events[k]);
  }

  lemma {:induction false} SessionHolds(u: Run, k: nat)
    requires IsSession(u) && k < |u.states|
    ensures Session(u.states[k])
  {
    hide Session, InSession, StepAt;
    if k > 0 {
      SessionHolds(u, k - 1);
      SessionStepAt(u, k - 1);
    }
  }

  /** In every interleaving within a session, running and pending instances together never
      exceed the desired number, and in single-instance mode they are on different slaves. */
  lemma LaunchesStayInBounds(u: Run, k: nat)
    requires IsSession(u) && k < |u.states|
    ensures var w := u.states[k];
            && |w.s.running.Keys| + |w.s.pending| <= w.s.desired
            && w.s.running.Keys !! w.s.pending
            && (w.s.single ==> forall a, b | a in w.s.running && b in w.s.running && a != b :: w.s.running[a].slave != w.s.running[b].slave)
            && (w.s.single ==> forall a, b | a in w.s.running && b in w.s.pending && b in w.nodes :: w.s.running[a].slave != w.nodes[b].slave)
  {
    SessionHolds(u, k);
    FineMeans(CrewOf(u.states[k]), u.states[k].s.desired, u.states[k].s.single);
  }

  lemma FineMeans(c: Crew, desired: nat, single: bool)
    requires Fine(c, desired, single)
    ensures |c.running.Keys| + |c.pending| <= desired && c.running.Keys !! c.pending
    ensures single ==> forall a, b | a in c.running && b in c.running && a != b :: c.running[a].slave != c.running[b].slave
    ensures single ==> forall a, b | a in c.running && b in c.pending && b in c.nodes :: c.running[a].slave != c.nodes[b].slave
  {
    if single {
      forall a, b | a in c.running && b in Instances(c) && a != b ensures c.running[a].slave != c.nodes[b].slave {
        assert a in Instances(c);
      }
    }
  }

  // ---------------------------------------------------------------- registration

  lemma ForgottenFine(c: Crew, desired: nat, single: bool)
    requires Fine(c, desired, single)
    ensures Fine(c.(running := map[]), desired, single) <==> c.alive <= (if c.pc.Launching? then {} else c.pending)
  {
    var c' := c.(running := map[]);
    assert c'.running.Keys == {};
    assert Recorded(c');
    if single {
      StillApart(c, c');
    }
  }

  /** A registration, which forgets the running nodes, keeps the session exactly if nothing is
      alive but a launch that is still pending. */
  lemma RegisterKeepsExactly(w: World)
    requires Session(w)
    ensures Session(After(w, Register)) <==> w.alive <= (if w.pc.Launching? then {} else w.s.pending)
  {
    hide Fine;
    ForgottenFine(CrewOf(w), w.s.desired, w.s.single);
  }
}
