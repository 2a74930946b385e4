/** The launch bound over a scheduler's whole life: it may inherit instances from an earlier
    scheduler, be disconnected and register again. While it is not synchronised it sets out on
    no launch; when it becomes synchronised it knows every living instance again. */
module Tenures {
  import opened Types
  import opened Text
  import opened Config
  import opened OfferCaches
  import opened SchedulerSpec
  import opened SchedulerSafety
  import opened LaunchBounds

  /** Instances are on record under their own names. */
  ghost predicate Named(nodes: map<string, Node>) {
    forall a {:trigger NamedAs(nodes, a)} | a in nodes :: NamedAs(nodes, a)
  }

  predicate NamedAs(nodes: map<string, Node>, a: string)
    requires a in nodes
  {
    nodes[a].name == a && Plain(a)
  }

  /** Living instances are on different slaves. */
  ghost predicate Spread(nodes: map<string, Node>, names: set<string>)
    requires names <= nodes.Keys
  {
    forall a, b | a in names && b in names && a != b :: nodes[a].slave != nodes[b].slave
  }

  ghost predicate Partly(running: set<string>, pending: set<string>, alive: set<string>, nodes: set<string>, pc: Pc, desired: nat) {
    && running <= alive && running !! pending && alive + pending <= nodes && |alive + pending| <= desired
    && (Underway(pc) ==> pending == {} && |alive| < desired)
    && (pc.Launching? ==> pending == {pc.n.name} && pc.n.name !in alive)
  }

  /** Living instances are on different slaves, and the offer in hand is from yet another one. */
  ghost predicate AllApart(c: Crew)
    requires c.alive + c.pending <= c.nodes.Keys
  {
    && Spread(c.nodes, c.alive + c.pending)
    && (c.pc.Held? || c.pc.Cleared? ==> forall a | a in c.alive :: c.nodes[a].slave != c.pc.o.slave)
  }

  /** What holds of the crew until the scheduler is synchronised: it knows some of the living
      instances, they are not too many, and a launcher that is still at work has room. */
  ghost predicate Adrift(c: Crew, desired: nat, single: bool) {
    && Partly(c.running.Keys, c.pending, c.alive, c.nodes.Keys, c.pc, desired)
    && Recorded(c)
    && (!c.pc.Idle? ==> c.alive <= c.used)
    && (single ==> AllApart(c))
  }

  predicate Accounted(w: World, a: string) {
    a in w.s.running || a in w.s.pending
  }

  /** A living instance that has been heard from is accounted for. */
  ghost predicate HeardIsKnown(w: World) {
    forall a | a in w.alive && a in w.nodes && String(w.nodes[a]) in w.s.heardFrom :: Accounted(w, a)
  }

  /** Whatever lives is accounted for or mentioned. */
  ghost predicate Covers(w: World, info: map<string, string>) {
    forall a | a in w.alive && a in w.nodes :: Accounted(w, a) || String(w.nodes[a]) in info
  }

  /** Once the store has been read, every living instance not accounted for is awaited, and
      once all that was awaited has been heard, there is none. */
  ghost predicate Awaited(w: World) {
    match w.sync
    case Fetched(info) => Covers(w, info)
    case Waiting(_) => Covers(w, w.s.reconciliationInfo)
    case InSync(_) => Covers(w, map[])
    case _ => true
  }

  ghost predicate Unsynced(w: World) {
    && !w.s.mutable && Adrift(CrewOf(w), w.s.desired, w.s.single) && Numbered(w)
    && HeardIsKnown(w) && Awaited(w)
  }

  ghost predicate Tenure(w: World) {
    Named(w.nodes) && if w.sync.Synced? then Session(w) else Unsynced(w)
  }

  // ---------------------------------------------------------------- what may go wrong

  /** The store is read, and it does not mention a living instance that is not accounted for. */
  ghost predicate Unmentioned(w: World, e: Event) {
    e.Fetch? && !Covers(w, w.store)
  }

  /** What an earlier attempt has read takes the place of what the last one waits for, and it
      does not mention such an instance. */
  ghost predicate Outdated(w: World, e: Event) {
    e.StaleLoad? && w.sync.Waiting? && e.i < |w.stale| && w.stale[e.i].Fetched? && !Covers(w, w.stale[e.i].info)
  }

  /** A report other than RUNNING about a living instance of which the scheduler does not know. */
  ghost predicate Premature(w: World, e: Event) {
    && e.Status? && (e.report.Starting? || e.report.Other?) && Parse(e.taskId).Some?
    && exists a :: a in w.alive && a in w.nodes && !Accounted(w, a) && String(w.nodes[a]) == e.taskId
  }

  /** The launcher looks whether the slave of its offer is in use, and there is an instance on
      that slave of which the scheduler does not know. */
  ghost predicate Misjudged(w: World, e: Event) {
    && e.Validate? && w.pc.Popped? && w.s.single
    && exists a :: a in w.alive && a in w.nodes && a !in w.s.running && w.nodes[a].slave == w.pc.o.slave
  }

  datatype Fault =
    NoFault | Untruthful | RunsOver | FoundMutable | Incomplete | OutOfDate | TooEarly | Misjudges | Reseeds | Lingers

  /** Nothing goes wrong but for one kind of fault. Reports are truthful; numbers do not run
      over; a registration finds the scheduler immutable, as a disconnection leaves it. Until
      the scheduler is synchronised, what is read from the store mentions every living instance
      that matters, none reports before it runs, the launcher does not misjudge a slave, and
      neither a reseeding nor the attempt of an earlier registration comes to its end. */
  ghost predicate FairBut(w: World, e: Event, fault: Fault) {
    && (!Truthful(w, e) ==> fault.Untruthful?)
    && (Overflows(w, e) ==> fault.RunsOver?)
    && (e.Register? && w.s.mutable ==> fault.FoundMutable?)
    && (!w.sync.Synced? ==>
          && (Unmentioned(w, e) ==> fault.Incomplete?)
          && (Outdated(w, e) ==> fault.OutOfDate?)
          && (Premature(w, e) ==> fault.TooEarly?)
          && (Misjudged(w, e) ==> fault.Misjudges?)
          && (e.ReseedRun? ==> fault.Reseeds?)
          && (e.StaleDone? ==> fault.Lingers?))
  }

  ghost predicate Fair(w: World, e: Event) {
    Enabled(w, e) && FairBut(w, e, NoFault)
  }

  // ---------------------------------------------------------------- the crew while unsynchronised

  lemma EndedAdrift(c: Crew, desired: nat, single: bool, name: string)
    requires Adrift(c, desired, single) && (c.pc.Launching? ==> name != c.pc.n.name)
    ensures Adrift(Ended(c, name), desired, single)
  {
    EndedRecorded(c, name);
    EndedPartly(c.running.Keys, c.pending, c.alive, c.nodes.Keys, c.pc, desired, name);
    hide Partly, Recorded;
  }

  lemma EndedPartly(running: set<string>, pending: set<string>, alive: set<string>, nodes: set<string>, pc: Pc, desired: nat,
                    name: string)
    requires Partly(running, pending, alive, nodes, pc, desired) && (pc.Launching? ==> name != pc.n.name)
    ensures Partly(running - {name}, pending - {name}, alive - {name}, nodes, pc, desired)
    ensures alive - {name} + (pending - {name}) <= alive + pending && alive + pending <= nodes
  {
    assert alive - {name} + (pending - {name}) == alive + pending - {name};
    FewerPending(alive + pending, name);
    FewerPending(alive, name);
  }

  lemma StartedPartly(running: set<string>, pending: set<string>, alive: set<string>, nodes: set<string>, pc: Pc, desired: nat,
                      name: string)
    requires Partly(running, pending, alive, nodes, pc, desired) && name in alive
    ensures Partly(running + {name}, pending - {name}, alive, nodes, pc, desired)
    ensures alive + (pending - {name}) == alive + pending && alive + pending <= nodes
  {
    assert alive + (pending - {name}) == alive + pending;
  }

  lemma StartedAdrift(c: Crew, desired: nat, single: bool, n: Node)
    requires Adrift(c, desired, single) && n.name in c.alive && n.name in c.nodes && n.slave == c.nodes[n.name].slave
    ensures Adrift(Started(c, n), desired, single)
  {
    StartedRecorded(c, n);
    StartedPartly(c.running.Keys, c.pending, c.alive, c.nodes.Keys, c.pc, desired, n.name);
    hide Partly, Recorded;
  }

  lemma ForgottenAdrift(c: Crew, desired: nat, single: bool)
    requires Adrift(c, desired, single)
    ensures Adrift(c.(running := map[]), desired, single)
  {
    assert c.(running := map[]).running.Keys == {};
  }

  /** From a session too: its living instances are among those it counts. */
  lemma LeftAdrift(c: Crew, desired: nat, single: bool)
    requires Fine(c, desired, single)
    ensures Adrift(c.(running := map[]), desired, single)
  {
    assert Instances(c) <= c.nodes.Keys && Instances(c) <= c.used;
    hide Partly, Counted, AllApart, Apart, Recorded;
    LeftPartly(c.running.Keys, c.pending, c.alive, c.nodes.Keys, c.pc, desired);
    ForgottenRecorded(c);
    if single {
      LeftApart(c, c.(running := map[]));
    }
  }

  lemma ForgottenRecorded(c: Crew)
    requires Recorded(c)
    ensures Recorded(c.(running := map[])) && c.(running := map[]).running.Keys == {}
  {
  }

  lemma LeftApart(c: Crew, c': Crew)
    requires Recorded(c) && Apart(c) && c.alive <= Instances(c) && c' == c.(running := c'.running)
    requires c.pc.Held? || c.pc.Cleared? ==> c.alive <= c.running.Keys
    ensures AllApart(c')
  {
  }

  lemma LeftPartly(running: set<string>, pending: set<string>, alive: set<string>, nodes: set<string>, pc: Pc, desired: nat)
    requires Counted(running, pending, alive, pc, desired) && running + pending <= nodes
    ensures Partly({}, pending, alive, nodes, pc, desired) && alive <= running + pending
    ensures pc.Held? || pc.Cleared? ==> alive <= running
  {
    SubsetCount(alive + pending, running + pending);
    assert |running + pending| == |running| + |pending|;
    if Underway(pc) {
      SubsetCount(alive, running);
    }
  }

  /** When everything living is accounted for, there is a session again, and only then. */
  lemma AdriftFine(c: Crew, desired: nat, single: bool)
    requires Adrift(c, desired, single)
    ensures Fine(c, desired, single) <==> c.alive <= Instances(c)
  {
    PartlyCounted(c.running.Keys, c.pending, c.alive, c.nodes.Keys, c.pc, desired);
    hide Counted;
  }

  lemma PartlyCounted(running: set<string>, pending: set<string>, alive: set<string>, nodes: set<string>, pc: Pc, desired: nat)
    requires Partly(running, pending, alive, nodes, pc, desired)
    ensures Counted(running, pending, alive, pc, desired) <==> alive <= running + pending
    ensures running <= alive && alive + pending <= nodes
  {
    SubsetCount(running + pending, alive + pending);
    SubsetCount(running, alive);
    assert |running + pending| == |running| + |pending|;
  }

  // ---------------------------------------------------------------- the launcher while unsynchronised

  lemma JoinedPartly(running: set<string>, alive: set<string>, nodes: set<string>, pc: Pc, desired: nat, o: Offer, n: Node)
    requires Partly(running, {}, alive, nodes, pc, desired) && pc.Cleared? && n.name !in alive
    ensures Partly(running, {n.name}, alive, nodes + {n.name}, Launching(o, n), desired)
  {
    assert alive + {} == alive;
    assert |alive + {n.name}| == |alive| + 1;
  }

  lemma JoinedAdrift(c: Crew, desired: nat, single: bool, n: Node)
    requires Adrift(c, desired, single) && c.pc.Cleared? && n.name !in c.used && n.slave == c.pc.o.slave
    ensures Adrift(Joined(c, c.pc.o, n), desired, single)
  {
    hide Partly, Recorded, AllApart;
    ClearedHas(c, desired);
    var c' := Joined(c, c.pc.o, n);
    assert c'.pending == {n.name} && c'.nodes.Keys == c.nodes.Keys + {n.name};
    JoinedPartly(c.running.Keys, c.alive, c.nodes.Keys, c.pc, desired, c.pc.o, n);
    JoinedRecorded(c, n);
    if single {
      JoinedApart(c, n);
    }
  }

  lemma ClearedHas(c: Crew, desired: nat)
    requires Partly(c.running.Keys, c.pending, c.alive, c.nodes.Keys, c.pc, desired) && c.pc.Cleared?
    ensures c.pending == {} && c.alive + c.pending <= c.nodes.Keys
  {
  }

  lemma JoinedRecorded(c: Crew, n: Node)
    requires Recorded(c) && c.pc.Cleared? && n.name !in c.used
    ensures Recorded(Joined(c, c.pc.o, n))
  {
    var c' := Joined(c, c.pc.o, n);
    forall m | m in c'.running ensures c'.running[m].slave == c'.nodes[m].slave {
      assert m in Instances(c);
    }
  }

  lemma JoinedApart(c: Crew, n: Node)
    requires c.alive + c.pending <= c.nodes.Keys && AllApart(c) && c.pc.Cleared? && c.pending == {}
    requires n.name !in c.alive && n.slave == c.pc.o.slave
    ensures AllApart(Joined(c, c.pc.o, n))
  {
    var c' := Joined(c, c.pc.o, n);
    assert c'.pending == {n.name};
    forall a, b | a in c.alive + {n.name} && b in c.alive + {n.name} && a != b ensures c'.nodes[a].slave != c'.nodes[b].slave {
      assert a in c.alive ==> c'.nodes[a] == c.nodes[a];
      assert b in c.alive ==> c'.nodes[b] == c.nodes[b];
    }
  }

  lemma LaunchedAdrift(c: Crew, desired: nat, single: bool)
    requires Adrift(c, desired, single) && c.pc.Launching?
    ensures Adrift(c.(pc := Idle, alive := c.alive + {c.pc.n.name}), desired, single)
  {
    assert c.alive + {c.pc.n.name} + c.pending == c.alive + c.pending;
  }

  /** It may give up, take an offer, or find its offer good. */
  lemma StandsAdrift(c: Crew, desired: nat, single: bool, pc: Pc)
    requires Adrift(c, desired, single) && !c.pc.Launching? && !pc.Launching? && (Underway(pc) ==> Underway(c.pc))
    requires pc.Held? || pc.Cleared? ==> single ==> forall a | a in c.alive && a in c.nodes :: c.nodes[a].slave != pc.o.slave
    ensures Adrift(c.(pc := pc), desired, single)
  {
  }

  /** What the launcher's checks have established where it stands next: it cannot set out, nor
      pass its last check. */
  lemma NextUnsynced(w: World, e: Event)
    requires Enabled(w, e) && (e.Check? || e.Pop? || e.Validate? || e.Recheck?) && !w.s.mutable && !Misjudged(w, e)
    requires Recorded(CrewOf(w))
    ensures var pc := AfterLaunch(w, e).pc;
            && CrewOf(AfterLaunch(w, e)) == CrewOf(w).(pc := pc) && !pc.Launching? && !w.pc.Launching?
            && (Underway(pc) ==> Underway(w.pc)) && !pc.Cleared?
            && (pc.Held? && w.s.single ==> forall a | a in w.alive && a in w.nodes :: w.nodes[a].slave != pc.o.slave)
  {
    if e.Validate? {
      ValidSlave(w);
    }
    hide UsesSlave, Recorded;
  }

  lemma ValidSlave(w: World)
    requires w.pc.Popped? && Recorded(CrewOf(w)) && !Misjudged(w, Validate)
    ensures w.s.single && !UsesSlave(w.s, w.pc.o.slave) ==>
              forall a | a in w.alive && a in w.nodes :: w.nodes[a].slave != w.pc.o.slave
  {
    forall a | a in w.alive && a in w.nodes && a in w.s.running
      ensures w.s.running[a].slave == w.nodes[a].slave {
    }
  }

  lemma CommitAdrift(w: World, ok: bool)
    requires Adrift(CrewOf(w), w.s.desired, w.s.single) && Numbered(w) && Enabled(w, Commit(ok)) && !Overflows(w, Commit(ok))
    ensures var w' := AfterLaunch(w, Commit(ok)); Adrift(CrewOf(w'), w.s.desired, w.s.single)
  {
    NewNameIsFresh(w, w.pc.o);
    assert NewNode(w.s, w.pc.o).slave == w.pc.o.slave;
    hide NewNode, Adrift, Numbered, Overflows;
    if ok {
      JoinedAdrift(CrewOf(w), w.s.desired, w.s.single, NewNode(w.s, w.pc.o));
    } else {
      StandsAdrift(CrewOf(w), w.s.desired, w.s.single, Idle);
    }
  }

  lemma LaunchAdrift(w: World, e: Event)
    requires Adrift(CrewOf(w), w.s.desired, w.s.single) && Numbered(w) && !w.s.mutable
    requires Enabled(w, e) && IsLaunchEvent(e) && !Overflows(w, e) && !Misjudged(w, e)
    ensures var w' := AfterLaunch(w, e); Adrift(CrewOf(w'), w.s.desired, w.s.single)
  {
    AdriftRecorded(w);
    hide Adrift, Numbered, Overflows, Misjudged, Recorded, AfterLaunch;
    if e.Commit? {
      CommitAdrift(w, e.ok);
    } else if e.Launch? {
      LaunchedAdrift(CrewOf(w), w.s.desired, w.s.single);
      LaunchCrew(w);
    } else {
      NextUnsynced(w, e);
      StandsAdrift(CrewOf(w), w.s.desired, w.s.single, AfterLaunch(w, e).pc);
    }
  }

  lemma LaunchCrew(w: World)
    requires w.pc.Launching?
    ensures CrewOf(AfterLaunch(w, Launch)) == CrewOf(w).(pc := Idle, alive := w.alive + {w.pc.n.name})
  {
  }

  lemma AdriftRecorded(w: World)
    requires Adrift(CrewOf(w), w.s.desired, w.s.single)
    ensures Recorded(CrewOf(w))
  {
  }

  /** Whoever lives after a step is accounted for or lived before, as the same node. */
  ghost predicate Knows(w: World, w': World) {
    && w'.s.heardFrom == w.s.heardFrom && w'.s.mutable == w.s.mutable && w'.s.reconciliationInfo == w.s.reconciliationInfo
    && (forall a | a in w'.alive :: Accounted(w', a) || (a in w.alive && (a in w'.nodes ==> a in w.nodes && w'.nodes[a] == w.nodes[a])))
    && (forall a | Accounted(w, a) :: Accounted(w', a))
  }

  lemma CommitKnows(w: World, ok: bool)
    requires Adrift(CrewOf(w), w.s.desired, w.s.single) && Numbered(w) && Enabled(w, Commit(ok)) && !Overflows(w, Commit(ok))
    ensures Knows(w, AfterLaunch(w, Commit(ok)))
  {
    NewIsNotLiving(w);
    hide NewNode, Adrift, Numbered, Overflows, Knows;
    KnowsStill(w, AfterLaunch(w, Commit(ok)), NewNode(w.s, w.pc.o).name);
  }

  lemma NewIsNotLiving(w: World)
    requires Adrift(CrewOf(w), w.s.desired, w.s.single) && Numbered(w) && w.pc.Cleared? && w.s.highest != MAX_INT
    ensures NewNode(w.s, w.pc.o).name !in w.alive
  {
    hide NewNode, Adrift;
    NewNameIsFresh(w, w.pc.o);
    AdriftUsed(w);
  }

  lemma KnowsStill(w: World, w': World, name: string)
    requires w'.alive == w.alive && w'.s == w.s.(highest := w'.s.highest, pending := w'.s.pending) && w.s.pending <= w'.s.pending
    requires name !in w.alive && forall a | a in w'.nodes && a != name :: a in w.nodes && w'.nodes[a] == w.nodes[a]
    ensures Knows(w, w')
  {
  }

  lemma AdriftUsed(w: World)
    requires Adrift(CrewOf(w), w.s.desired, w.s.single) && !w.pc.Idle?
    ensures w.alive <= w.used
  {
  }

  lemma HandOverKnows(w: World)
    requires Adrift(CrewOf(w), w.s.desired, w.s.single) && w.pc.Launching?
    ensures Knows(w, AfterLaunch(w, Launch))
  {
    assert w.pc.n.name in w.s.pending;
    hide Adrift, Knows;
    JoinsKnows(w, AfterLaunch(w, Launch), w.pc.n.name);
  }

  lemma JoinsKnows(w: World, w': World, name: string)
    requires w'.alive == w.alive + {name} && name in w.s.pending && w'.s == w.s && w'.nodes == w.nodes
    ensures Knows(w, w')
  {
  }

  lemma LaunchKnows(w: World, e: Event)
    requires Adrift(CrewOf(w), w.s.desired, w.s.single) && Numbered(w) && Enabled(w, e) && IsLaunchEvent(e) && !Overflows(w, e)
    ensures Knows(w, AfterLaunch(w, e))
  {
    hide Adrift, Numbered, Overflows, UsesSlave, CanLaunch;
    if e.Commit? {
      CommitKnows(w, e.ok);
    } else if e.Launch? {
      HandOverKnows(w);
    } else {
      LaunchEventKeeps(w, e);
    }
  }

  // ---------------------------------------------------------------- reports while unsynchronised

  lemma IdNames(w: World, a: string)
    requires Named(w.nodes) && a in w.nodes && Parse(String(w.nodes[a])).Some?
    ensures Parse(String(w.nodes[a])).value.name == a
  {
    assert NamedAs(w.nodes, a);
    ParseKeepsName(w.nodes[a]);
  }

  lemma StatusAdrift(w: World, e: Event)
    requires Adrift(CrewOf(w), w.s.desired, w.s.single) && e.Status? && Truthful(w, e)
    ensures var w' := Reported(w, e.taskId, e.slave, e.report, e.saved); Adrift(CrewOf(w'), w'.s.desired, w'.s.single)
  {
    hide Parse, Reported, Adrift, Ended, Started;
    StatusCrew(w, e.taskId, e.slave, e.report, e.saved);
    if Parse(e.taskId).Some? {
      var n := Parse(e.taskId).value;
      if e.report.Terminal? {
        EndedAdrift(CrewOf(w), w.s.desired, w.s.single, n.name);
      } else if e.report.Running? {
        StartedAdrift(CrewOf(w), w.s.desired, w.s.single, n.(slave := e.slave));
      }
    }
  }

  lemma HeardAre(w: World, taskId: string, slave: string, report: Report, saved: bool)
    ensures var w' := Reported(w, taskId, slave, report, saved);
            && w'.nodes == w.nodes && w'.sync == w.sync && w'.pc == w.pc && w'.alive <= w.alive
            && w'.s.heardFrom == (if Parse(taskId).Some? then w.s.heardFrom + {taskId} else w.s.heardFrom)
            && (Parse(taskId).Some? && report.Running? ==> Accounted(w', Parse(taskId).value.name))
            && (Parse(taskId).Some? && report.Terminal? ==> Parse(taskId).value.name !in w'.alive)
            && (forall a | a in w'.alive && Accounted(w, a) :: Accounted(w', a))
            && (forall id | id in w.s.reconciliationInfo ::
                  id in w'.s.reconciliationInfo || (id == taskId && Parse(taskId).Some? && report.Terminal?))
  {
    hide Parse, Raised;
  }

  lemma StatusHeard(w: World, e: Event)
    requires Named(w.nodes) && HeardIsKnown(w) && e.Status? && !Premature(w, e)
    ensures HeardIsKnown(Reported(w, e.taskId, e.slave, e.report, e.saved))
  {
    hide Parse, Reported, Named, Accounted;
    HeardAre(w, e.taskId, e.slave, e.report, e.saved);
    var w' := Reported(w, e.taskId, e.slave, e.report, e.saved);
    forall a | a in w'.alive && a in w'.nodes && String(w'.nodes[a]) in w'.s.heardFrom ensures Accounted(w', a) {
      if !Accounted(w, a) {
        assert String(w.nodes[a]) == e.taskId;
        IdNames(w, a);
      }
    }
  }

  lemma StatusAwaited(w: World, e: Event)
    requires Named(w.nodes) && Awaited(w) && e.Status?
    ensures Awaited(Reported(w, e.taskId, e.slave, e.report, e.saved))
  {
    hide Parse, Reported, Named, Accounted;
    HeardAre(w, e.taskId, e.slave, e.report, e.saved);
    var w' := Reported(w, e.taskId, e.slave, e.report, e.saved);
    if w.sync.Waiting? {
      forall a | a in w'.alive && a in w'.nodes ensures Accounted(w', a) || String(w'.nodes[a]) in w'.s.reconciliationInfo {
        if String(w.nodes[a]) == e.taskId && Parse(e.taskId).Some? {
          IdNames(w, a);
        }
      }
    }
  }

  lemma StatusUnsynced(w: World, e: Event)
    requires Tenure(w) && !w.sync.Synced? && Fair(w, e) && e.Status?
    ensures Tenure(After(w, e))
  {
    hide Parse, Reported, Named, Adrift, Numbered, HeardIsKnown, Awaited, Truthful, Overflows, Premature, Misjudged;
    StepNumbered(w, e);
    StatusAdrift(w, e);
    StatusHeard(w, e);
    StatusAwaited(w, e);
    StatusKeepsImmutable(w, e.taskId, e.slave, e.report, e.saved);
    HeardAre(w, e.taskId, e.slave, e.report, e.saved);
  }

  // ---------------------------------------------------------------- the other events while unsynchronised

  /** Nothing that the crew depends on has changed. */
  lemma SameUnsynced(w: World, w': World)
    requires Tenure(w) && !w.sync.Synced? && CrewOf(w') == CrewOf(w)
    requires w'.s == w.s.(reseeding := w'.s.reseeding) && w'.sync == w.sync
    ensures Tenure(w')
  {
  }

  lemma KnowsHeard(w: World, w': World)
    requires Knows(w, w') && HeardIsKnown(w)
    ensures HeardIsKnown(w')
  {
    hide Accounted, String;
  }

  lemma KnowsAwaited(w: World, w': World)
    requires Knows(w, w') && Awaited(w) && w'.sync == w.sync
    ensures Awaited(w')
  {
    hide Accounted, String;
  }

  lemma LaunchHeard(w: World, e: Event)
    requires Adrift(CrewOf(w), w.s.desired, w.s.single) && Numbered(w) && Enabled(w, e) && IsLaunchEvent(e) && !Overflows(w, e)
    requires HeardIsKnown(w) && Awaited(w)
    ensures HeardIsKnown(After(w, e)) && Awaited(After(w, e)) && After(w, e).s.mutable == w.s.mutable
  {
    hide Adrift, Numbered, Overflows, AfterLaunch, HeardIsKnown, Awaited;
    LaunchKnows(w, e);
    LaunchEventKeeps(w, e);
    KnowsHeard(w, After(w, e));
    KnowsAwaited(w, After(w, e));
  }

  lemma LaunchUnsynced(w: World, e: Event)
    requires Tenure(w) && !w.sync.Synced? && Fair(w, e) && IsLaunchEvent(e)
    ensures Tenure(After(w, e))
  {
    hide Named, Adrift, Numbered, HeardIsKnown, Awaited, Truthful, Overflows, Premature, Misjudged, AfterLaunch;
    StepNumbered(w, e);
    NamedKept(w, e);
    LaunchAdrift(w, e);
    LaunchHeard(w, e);
    LaunchEventKeeps(w, e);
  }

  /** Reading the store and putting it in place keeps everything exactly if what was read
      mentions the living instances that are not accounted for. */
  lemma LoadExactly(w: World, e: Event)
    requires Enabled(w, e) && Tenure(w) && !w.sync.Synced? && (e.Fetch? || e.Load? || e.StaleFetch? || e.StaleLoad?)
    ensures Tenure(After(w, e)) <==> !Unmentioned(w, e) && !Outdated(w, e)
  {
    hide Named, Adrift, HeardIsKnown, Numbered, Covers;
    var w' := After(w, e);
    assert CrewOf(w') == CrewOf(w);
    SameNumbers(w, w');
    SameHeard(w, w');
    SameCovers(w, w', w.store);
    SameCovers(w, w', w.s.reconciliationInfo);
    SameCovers(w, w', map[]);
    if e.Load? || w.sync.Fetched? {
      SameCovers(w, w', w.sync.info);
    }
    if e.StaleLoad? {
      SameCovers(w, w', w.stale[e.i].info);
    }
  }

  lemma SameCovers(w: World, w': World, info: map<string, string>)
    requires CrewOf(w') == CrewOf(w)
    ensures Covers(w', info) <==> Covers(w, info)
  {
    assert forall a :: Accounted(w', a) <==> Accounted(w, a);
    hide Accounted, String;
  }

  lemma SameNumbers(w: World, w': World)
    requires Numbered(w) && w'.used == w.used && w'.s.highest == w.s.highest
    ensures Numbered(w')
  {
  }

  lemma SameHeard(w: World, w': World)
    requires HeardIsKnown(w) && CrewOf(w') == CrewOf(w) && w'.s.heardFrom == w.s.heardFrom
    ensures HeardIsKnown(w')
  {
    forall a | a in w'.alive && a in w'.nodes && String(w'.nodes[a]) in w'.s.heardFrom ensures Accounted(w', a) {
      assert Accounted(w, a);
    }
  }

  lemma CheckUnsynced(w: World)
    requires Enabled(w, SyncCheck) && Tenure(w)
    ensures Tenure(After(w, SyncCheck))
  {
    hide Named, Adrift, Numbered, HeardIsKnown, Covers;
    var w' := After(w, SyncCheck);
    assert CrewOf(w') == CrewOf(w);
    SameNumbers(w, w');
    SameHeard(w, w');
    SameCovers(w, w', w.s.reconciliationInfo);
    SameCovers(w, w', map[]);
    if w'.sync.InSync? {
      HeardCovers(w);
    }
  }

  lemma HeardCovers(w: World)
    requires HeardIsKnown(w) && Covers(w, w.s.reconciliationInfo) && w.s.reconciliationInfo.Keys <= w.s.heardFrom
    ensures Covers(w, map[])
  {
    hide String;
    forall a | a in w.alive && a in w.nodes ensures Accounted(w, a) {
      var id := String(w.nodes[a]);
      assert id in w.s.reconciliationInfo ==> id in w.s.heardFrom;
    }
  }

  lemma AllKnown(w: World)
    requires Adrift(CrewOf(w), w.s.desired, w.s.single) && Awaited(w) && w.sync.InSync?
    ensures w.alive <= Instances(CrewOf(w))
  {
    assert w.alive <= w.nodes.Keys;
    hide Adrift;
    forall a | a in w.alive ensures a in Instances(CrewOf(w)) {
      assert Accounted(w, a);
    }
  }

  /** The end of synchronisation: whoever lives has been awaited, heard, and is known. */
  lemma DoneUnsynced(w: World)
    requires Enabled(w, SyncDone) && Tenure(w)
    ensures Tenure(After(w, SyncDone)) && Session(After(w, SyncDone))
  {
    hide Named, Adrift, Fine, Numbered, HeardIsKnown, Awaited;
    AllKnown(w);
    AdriftFine(CrewOf(w), w.s.desired, w.s.single);
    assert CrewOf(After(w, SyncDone)) == CrewOf(w);
    SameNumbers(w, After(w, SyncDone));
  }

  lemma RegisterUnsynced(w: World)
    requires Tenure(w) && Fair(w, Register)
    ensures Tenure(After(w, Register))
  {
    hide Named, Fine, Adrift, Truthful, Overflows;
    var w' := After(w, Register);
    assert CrewOf(w') == CrewOf(w).(running := map[]);
    if w.sync.Synced? {
      LeftAdrift(CrewOf(w), w.s.desired, w.s.single);
    } else {
      ForgottenAdrift(CrewOf(w), w.s.desired, w.s.single);
    }
    SameNumbers(w, w');
  }

  lemma UnsyncedStep(w: World, e: Event)
    requires Tenure(w) && !w.sync.Synced? && Fair(w, e)
    ensures Tenure(After(w, e))
  {
    hide Tenure, AfterLaunch, Reported, Truthful, Overflows, Unmentioned, Outdated, Premature, Misjudged;
    if IsOfferEvent(e) {
      OfferEventKeeps(w, e);
      SameUnsynced(w, After(w, e));
    } else if IsLaunchEvent(e) {
      LaunchUnsynced(w, e);
    } else {
      match e {
        case Status(_, _, _, _) => StatusUnsynced(w, e);
        case Register => RegisterUnsynced(w);
        case Fetch => LoadExactly(w, e);
        case Load => LoadExactly(w, e);
        case StaleFetch(_) => LoadExactly(w, e);
        case StaleLoad(_) => LoadExactly(w, e);
        case StaleCheck(_) => SameUnsynced(w, After(w, e));
        case SyncCheck => CheckUnsynced(w);
        case SyncDone => DoneUnsynced(w);
        case Disconnect => DisconnectUnsynced(w);
        case ReseedBegin => SameUnsynced(w, After(w, e));
        case _ =>
      }
    }
  }

  lemma DisconnectUnsynced(w: World)
    requires Tenure(w) && !w.sync.Synced?
    ensures Tenure(After(w, Disconnect))
  {
    assert After(w, Disconnect) == w;
  }

  // ---------------------------------------------------------------- the whole tenure

  lemma NamedKept(w: World, e: Event)
    requires Named(w.nodes) && Enabled(w, e)
    ensures Named(After(w, e).nodes)
  {
    hide AfterLaunch, Reported, Plain, NameOf;
    match e {
      case Status(taskId, slave, report, saved) => HeardAre(w, taskId, slave, report, saved);
      case Commit(ok) => CommitNamed(w, ok);
      case _ =>
        if IsOfferEvent(e) {
          OfferEventKeeps(w, e);
        } else if IsLaunchEvent(e) {
          LaunchEventKeeps(w, e);
        }
    }
  }

  lemma CommitNamed(w: World, ok: bool)
    requires Named(w.nodes) && w.pc.Cleared?
    ensures Named(AfterLaunch(w, Commit(ok)).nodes)
  {
    NameIsPlain(Increment(w.s.highest));
    hide Plain, NameOf;
    var w' := AfterLaunch(w, Commit(ok));
    forall a | a in w'.nodes ensures NamedAs(w'.nodes, a) {
      assert a in w.nodes ==> NamedAs(w.nodes, a);
    }
  }

  lemma SyncedStays(w: World, e: Event)
    requires Enabled(w, e) && w.sync.Synced? && !e.Register?
    ensures After(w, e).sync.Synced?
  {
    hide AfterLaunch, Reported;
    if e.Status? {
      HeardAre(w, e.taskId, e.slave, e.report, e.saved);
    } else if IsOfferEvent(e) {
      OfferEventKeeps(w, e);
    } else if IsLaunchEvent(e) {
      LaunchEventKeeps(w, e);
    }
  }

  lemma TenureStep(w: World, e: Event)
    requires Tenure(w) && Fair(w, e)
    ensures Tenure(After(w, e))
  {
    if !w.sync.Synced? {
      UnsyncedStep(w, e);
    } else if e.Register? {
      RegisterUnsynced(w);
    } else {
      NamedKept(w, e);
      SyncedStays(w, e);
      hide Session, Named, After, Truthful, Overflows;
      StepSession(w, e);
    }
  }

  // ---------------------------------------------------------------- every fault tells

  lemma PrematureBreaks(w: World, e: Event)
    requires Enabled(w, e) && Premature(w, e)
    ensures !HeardIsKnown(After(w, e))
  {
    hide Parse, String, Raised;
    var a :| a in w.alive && a in w.nodes && !Accounted(w, a) && String(w.nodes[a]) == e.taskId;
    var w' := After(w, e);
    assert a in w'.alive && a in w'.nodes && String(w'.nodes[a]) in w'.s.heardFrom && !Accounted(w', a);
  }

  /** On the slave of the offer lives an instance that is not running, hence none that is. */
  lemma MisjudgedBreaks(w: World)
    requires Adrift(CrewOf(w), w.s.desired, w.s.single) && Misjudged(w, Validate)
    ensures var w' := After(w, Validate); !Adrift(CrewOf(w'), w'.s.desired, w'.s.single)
  {
    var a :| a in w.alive && a in w.nodes && a !in w.s.running && w.nodes[a].slave == w.pc.o.slave;
    LooksFree(w, a);
    var w' := After(w, Validate);
    assert w' == w.(pc := Held(w.pc.o));
    assert a in CrewOf(w').alive && CrewOf(w').nodes[a].slave == CrewOf(w').pc.o.slave;
    assert !AllApart(CrewOf(w'));
  }

  lemma LooksFree(w: World, a: string)
    requires Adrift(CrewOf(w), w.s.desired, true) && a in w.alive && a !in w.s.running
    ensures a in w.nodes && !UsesSlave(w.s, w.nodes[a].slave)
  {
    forall b | b in w.s.running ensures w.s.running[b].slave != w.nodes[a].slave {
      assert b in w.alive && w.s.running[b].slave == w.nodes[b].slave;
      assert a in w.alive + w.s.pending && b in w.alive + w.s.pending;
    }
  }

  lemma FaultBreaks(w: World, e: Event)
    requires Enabled(w, e) && Tenure(w) && Truthful(w, e) && !FairBut(w, e, NoFault)
    ensures !Tenure(After(w, e))
  {
    hide Named, Session, Adrift, Numbered, HeardIsKnown, Awaited, Truthful, Overflows, Unmentioned, Outdated, Premature, Misjudged, Reported, AfterLaunch;
    if Overflows(w, e) {
      NumbersBreak(w, e);
    } else if e.Register? && w.s.mutable {
    } else if Unmentioned(w, e) || Outdated(w, e) {
      UnmentionedIs(w, e);
      LoadExactly(w, e);
    } else if Premature(w, e) {
      PrematureIs(w, e);
      PrematureBreaks(w, e);
      HeardAre(w, e.taskId, e.slave, e.report, e.saved);
    } else if Misjudged(w, e) {
      MisjudgedIs(w, e);
      MisjudgedBreaks(w);
      LaunchEventKeeps(w, e);
    }
  }

  lemma NumbersBreak(w: World, e: Event)
    requires Enabled(w, e) && Tenure(w) && Overflows(w, e)
    ensures !Tenure(After(w, e))
  {
    hide Named, Adrift, Fine, HeardIsKnown, Awaited, Overflows, Numbered, After, Enabled;
    StepNumbered(w, e);
  }

  lemma UnmentionedIs(w: World, e: Event)
    requires Unmentioned(w, e) || Outdated(w, e)
    ensures e.Fetch? || e.StaleLoad?
  {
  }

  lemma PrematureIs(w: World, e: Event)
    requires Premature(w, e)
    ensures e.Status?
  {
  }

  lemma MisjudgedIs(w: World, e: Event)
    requires Misjudged(w, e)
    ensures e == Validate
  {
  }

  /** An event with truthful reports keeps the invariant exactly if nothing goes wrong in it:
      none of the faults could be left out, and there are no others. */
  lemma TenureStepExactly(w: World, e: Event)
    requires Enabled(w, e) && Tenure(w) && Truthful(w, e)
    ensures Tenure(After(w, e)) <==> FairBut(w, e, NoFault)
  {
    hide Tenure, FairBut, Enabled, After, Truthful;
    if FairBut(w, e, NoFault) {
      TenureStep(w, e);
    } else {
      FaultBreaks(w, e);
    }
  }

  // ---------------------------------------------------------------- whole lives

  /** The instances that a new scheduler may find: no more than it wants, and spread out. */
  ghost predicate Inheritable(w: World) {
    && w.alive <= w.nodes.Keys && Named(w.nodes) && |w.alive| <= w.s.desired
    && (w.s.single ==> Spread(w.nodes, w.alive))
  }

  lemma FreshTenure(w: World)
    requires Fresh(w) && Inheritable(w)
    ensures Tenure(w)
  {
    assert w.alive + w.s.pending == w.alive;
    assert CrewOf(w).running.Keys == {};
  }

  ghost predicate IsTenure(u: Run) {
    && IsRun(u) && Inheritable(u.states[0])
    && forall k {:trigger FairAt(u, k)} | 0 <= k < |u.events| :: FairAt(u, k)
  }

  ghost predicate FairAt(u: Run, k: nat)
    requires k < |u.events| && k < |u.states|
  {
    Fair(u.states[k], u.events[k])
  }

  lemma TenureStepAt(u: Run, k: nat)
    requires IsTenure(u) && k < |u.events| && Tenure(u.states[k])
    ensures Tenure(u.states[k + 1])
  {
    assert StepAt(u, k) && FairAt(u, k);
    hide Tenure, Fair, Enabled, After, Inheritable, IsRun;
    TenureStep(u.states[k], u.events[k]);
  }

  lemma {:induction false} TenureHolds(u: Run, k: nat)
    requires IsTenure(u) && k < |u.states|
    ensures Tenure(u.states[k])
  {
    hide Tenure, Fair, Inheritable, Fresh, StepAt, FairAt;
    if k == 0 {
      FreshTenure(u.states[0]);
    } else {
      TenureHolds(u, k - 1);
      TenureStepAt(u, k - 1);
    }
  }

  /** A run with truthful reports keeps the invariant throughout exactly if nothing goes wrong. */
  lemma TenureExactly(u: Run)
    requires IsRun(u) && Inheritable(u.states[0])
    requires forall k {:trigger TruthfulAt(u, k)} | 0 <= k < |u.events| :: TruthfulAt(u, k)
    ensures (forall k | 0 <= k < |u.states| :: Tenure(u.states[k])) <==> IsTenure(u)
  {
    hide Tenure, Fair, Inheritable, Fresh, StepAt, FairAt, TruthfulAt;
    if IsTenure(u) {
      forall k | 0 <= k < |u.states| ensures Tenure(u.states[k]) {
        TenureHolds(u, k);
      }
    }
    if forall k | 0 <= k < |u.states| :: Tenure(u.states[k]) {
      forall k | 0 <= k < |u.events| ensures FairAt(u, k) {
        assert TruthfulAt(u, k) && StepAt(u, k) && Tenure(u.states[k]) && Tenure(u.states[k + 1]);
        KeptIsFair(u, k);
      }
    }
  }

  ghost predicate TruthfulAt(u: Run, k: nat)
    requires k < |u.events| && k < |u.states|
  {
    Truthful(u.states[k], u.events[k])
  }

  lemma KeptIsFair(u: Run, k: nat)
    requires Steps(u) && k < |u.events| && TruthfulAt(u, k) && Tenure(u.states[k]) && Tenure(u.states[k + 1])
    ensures FairAt(u, k)
  {
    assert StepAt(u, k);
    hide Tenure, FairBut, Enabled, After, Truthful;
    TenureStepExactly(u.states[k], u.events[k]);
  }

  /** Over the whole life of a scheduler, whatever it inherits and however often it registers:
      instances known to run or pending never exceed the desired number, nor do the instances
      that really live, and in single-instance mode all of these are on different slaves. */
  lemma TenureStaysInBounds(u: Run, k: nat)
    requires IsTenure(u) && k < |u.states|
    ensures var w := u.states[k];
            && |w.s.running.Keys| + |w.s.pending| <= w.s.desired
            && w.s.running.Keys !! w.s.pending
            && w.alive + w.s.pending <= w.nodes.Keys && |w.alive + w.s.pending| <= w.s.desired
            && (w.s.single ==> Spread(w.nodes, w.alive + w.s.pending))
  {
    TenureHolds(u, k);
    hide IsTenure;
    TenureMeans(u.states[k]);
  }

  lemma TenureMeans(w: World)
    requires Tenure(w)
    ensures |w.s.running.Keys| + |w.s.pending| <= w.s.desired && w.s.running.Keys !! w.s.pending
    ensures w.alive + w.s.pending <= w.nodes.Keys && |w.alive + w.s.pending| <= w.s.desired
    ensures w.s.single ==> Spread(w.nodes, w.alive + w.s.pending)
  {
    var c := CrewOf(w);
    assert |c.running.Keys + c.pending| == |c.running.Keys| + |c.pending|;
    if w.sync.Synced? {
      SubsetCount(c.alive + c.pending, c.running.Keys + c.pending);
    } else {
      SubsetCount(c.running.Keys + c.pending, c.alive + c.pending);
    }
  }

  /** Where a scheduler ends its synchronisation with whatever knowledge: it is in a session
      exactly if every living instance is running or pending in its books. */
  lemma SyncDoneExactly(w: World)
    requires Enabled(w, SyncDone) && Adrift(CrewOf(w), w.s.desired, w.s.single) && Numbered(w)
    ensures Session(After(w, SyncDone)) <==> forall a | a in w.alive :: Accounted(w, a)
  {
    AdriftFine(CrewOf(w), w.s.desired, w.s.single);
    hide Adrift, Fine;
    assert CrewOf(After(w, SyncDone)) == CrewOf(w);
    SameNumbers(w, After(w, SyncDone));
    assert w.alive <= Instances(CrewOf(w)) <==> forall a | a in w.alive :: Accounted(w, a);
  }
}
