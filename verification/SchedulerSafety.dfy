/** What holds in every run of the scheduler, whatever Mesos reports: at most one launch is
    pending, running nodes are known tasks, synchronisation is safe, names are fresh. */
module SchedulerSafety {
  import opened Types
  import opened Text
  import opened Config
  import opened OfferCaches
  import opened SchedulerSpec

  // ---------------------------------------------------------------- at most one pending launch

  /** Between the first check and the commit nothing is pending, although no lock is held. */
  predicate OnePending(w: World) {
    && |w.s.pending| <= 1
    && (w.pc.Checked? || w.pc.Popped? || w.pc.Held? || w.pc.Cleared? ==> w.s.pending == {})
    && (w.pc.Launching? ==> w.s.pending <= {w.pc.n.name})
  }

  lemma FewerPending(a: set<string>, x: string)
    ensures |a - {x}| <= |a|
  {
    SubsetCount(a - {x}, a);
  }

  lemma StatusKeepsPending(w: World, taskId: string, slave: string, report: Report, saved: bool)
    requires OnePending(w)
    ensures OnePending(Reported(w, taskId, slave, report, saved))
  {
    hide Parse, Raised;
    match Parse(taskId) {
      case None =>
      case Some(n) => FewerPending(w.s.pending, n.name);
    }
  }

  lemma CommitKeepsPending(w: World, ok: bool)
    requires OnePending(w) && w.pc.Cleared?
    ensures OnePending(AfterLaunch(w, Commit(ok)))
  {
    hide NewNode, Increment;
    var n := NewNode(w.s, w.pc.o);
    OneName(w.s.pending, n.name);
    if ok {
      assert AfterLaunch(w, Commit(ok)).pc == Launching(w.pc.o, n);
    }
  }

  lemma OneName(p: set<string>, x: string)
    requires p == {}
    ensures |p + {x}| <= 1 && p + {x} <= {x}
  {
  }

  lemma PcKeepsPending(w: World, e: Event)
    requires OnePending(w) && Enabled(w, e) && IsLaunchEvent(e) && !e.Commit?
    ensures OnePending(AfterLaunch(w, e))
  {
    hide UsesSlave;
    var w' := AfterLaunch(w, e);
    assert w'.s == w.s;
  }

  lemma LauncherKeepsPending(w: World, e: Event)
    requires OnePending(w) && Enabled(w, e) && IsLaunchEvent(e)
    ensures OnePending(AfterLaunch(w, e))
  {
    if e.Commit? {
      CommitKeepsPending(w, e.ok);
    } else {
      PcKeepsPending(w, e);
    }
  }

  lemma StepKeepsPending(w: World, e: Event)
    requires OnePending(w) && Enabled(w, e)
    ensures OnePending(After(w, e))
  {
    hide UsesSlave, Accepts, Reported, AfterLaunch;
    if e.Status? {
      StatusKeepsPending(w, e.taskId, e.slave, e.report, e.saved);
    } else if IsOfferEvent(e) {
      OfferEventKeeps(w, e);
    } else if IsLaunchEvent(e) {
      LauncherKeepsPending(w, e);
    }
  }

  // ---------------------------------------------------------------- running nodes are known tasks

  /** Every running node has a task on record, and every task is on record under the name that
      its id carries. */
  predicate RunningKnown(s: Sched) {
    s.running.Keys <= s.tasks.Keys && forall n | n in s.tasks :: Carries(s.tasks[n], n)
  }

  predicate Carries(taskId: string, name: string) {
    Parse(taskId).Some? && Parse(taskId).value.name == name
  }

  lemma StatusKeepsKnown(s: Sched, taskId: string, slave: string, report: Report)
    requires RunningKnown(s)
    ensures RunningKnown(OnStatus(s, taskId, slave, report))
  {
    hide Raised, Parse;
  }

  lemma StepKeepsKnown(w: World, e: Event)
    requires RunningKnown(w.s) && Enabled(w, e)
    ensures RunningKnown(After(w, e).s)
  {
    hide AfterLaunch, OnStatus, Carries;
    if e.Status? {
      StatusKeepsKnown(w.s, e.taskId, e.slave, e.report);
    } else if IsOfferEvent(e) {
      OfferEventKeeps(w, e);
    } else if IsLaunchEvent(e) {
      LaunchEventKeeps(w, e);
    }
  }

  // ---------------------------------------------------------------- synchronisation with the master

  /** Every task id loaded from the store is still on record or has been heard from. */
  predicate SyncOK(w: World) {
    match w.sync
    case Waiting(loaded) => loaded <= w.s.reconciliationInfo.Keys + w.s.heardFrom
    case InSync(loaded) => loaded <= w.s.heardFrom
    case _ => true
  }

  lemma StatusKeepsSync(w: World, taskId: string, slave: string, report: Report, saved: bool)
    requires SyncOK(w)
    ensures SyncOK(Reported(w, taskId, slave, report, saved))
  {
    hide Parse, Raised;
  }

  /** An earlier attempt that loads the store again finds there at least what the last one is
      still waiting for. */
  predicate KeepsLoaded(w: World, e: Event) {
    e.StaleLoad? && w.sync.Waiting? && e.i < |w.stale| && w.stale[e.i].Fetched? ==>
      w.sync.loaded <= w.stale[e.i].info.Keys + w.s.heardFrom
  }

  /** Exactly an earlier attempt that loads less can spoil the last one. */
  lemma StepKeepsSync(w: World, e: Event)
    requires SyncOK(w) && Enabled(w, e)
    ensures SyncOK(After(w, e)) <==> KeepsLoaded(w, e)
  {
    hide AfterLaunch, Reported;
    if e.Status? {
      StatusKeepsSync(w, e.taskId, e.slave, e.report, e.saved);
    } else if IsOfferEvent(e) {
      OfferEventKeeps(w, e);
    } else if IsLaunchEvent(e) {
      LaunchEventKeeps(w, e);
    }
  }

  // ---------------------------------------------------------------- whole runs

  ghost predicate Basics(w: World) {
    OnePending(w) && RunningKnown(w.s)
  }

  lemma {:induction false} RunKeepsBasics(u: Run, k: nat)
    requires IsRun(u) && k < |u.states|
    ensures Basics(u.states[k])
  {
    if k > 0 {
      RunKeepsBasics(u, k - 1);
      hide OnePending, RunningKnown, After, Enabled;
      assert StepAt(u, k - 1);
      StepKeepsPending(u.states[k - 1], u.events[k - 1]);
      StepKeepsKnown(u.states[k - 1], u.events[k - 1]);
    }
  }

  /** At most one launch is ever pending, in every interleaving of everything. */
  lemma AtMostOnePending(u: Run, k: nat)
    requires IsRun(u) && k < |u.states|
    ensures |u.states[k].s.pending| <= 1
  {
    RunKeepsBasics(u, k);
  }

  ghost predicate AllKeepLoaded(u: Run, k: nat)
    requires Steps(u) && k <= |u.events|
  {
    forall j {:trigger KeepsLoadedAt(u, j)} | 0 <= j < k :: KeepsLoadedAt(u, j)
  }

  predicate KeepsLoadedAt(u: Run, j: nat)
    requires j < |u.states| && j < |u.events|
  {
    KeepsLoaded(u.states[j], u.events[j])
  }

  lemma {:induction false} RunKeepsSync(u: Run, k: nat)
    requires IsRun(u) && k <= |u.events| && AllKeepLoaded(u, k)
    ensures SyncOK(u.states[k])
  {
    if k > 0 {
      RunKeepsSync(u, k - 1);
      hide SyncOK, KeepsLoaded, After, Enabled;
      assert StepAt(u, k - 1);
      assert KeepsLoadedAt(u, k - 1);
      StepKeepsSync(u.states[k - 1], u.events[k - 1]);
    }
  }

  /** Safe start: whenever the attempt of the last registration makes the scheduler mutable,
      every task id that it loaded from the store has been heard from. */
  lemma SafeStart(u: Run, k: nat)
    requires IsRun(u) && k < |u.events| && u.events[k] == SyncDone && AllKeepLoaded(u, k)
    ensures u.states[k].sync.InSync? && u.states[k].sync.loaded <= u.states[k].s.heardFrom
  {
    RunKeepsSync(u, k);
    assert StepAt(u, k);
  }

  /** What makes the scheduler mutable: the end of an attempt to synchronise, that of the last
      registration or of an earlier one, and the end of a reseeding. */
  lemma MutableExactlyBy(w: World, e: Event)
    requires Enabled(w, e) && !w.s.mutable
    ensures After(w, e).s.mutable <==> e.SyncDone? || e.StaleDone? || e.ReseedRun?
  {
    hide AfterLaunch, Reported;
    if e.Status? {
      StatusKeepsImmutable(w, e.taskId, e.slave, e.report, e.saved);
    } else if IsOfferEvent(e) {
      OfferEventKeeps(w, e);
    } else if IsLaunchEvent(e) {
      LaunchEventKeeps(w, e);
    }
  }

  lemma StatusKeepsImmutable(w: World, taskId: string, slave: string, report: Report, saved: bool)
    requires !w.s.mutable
    ensures !Reported(w, taskId, slave, report, saved).s.mutable
  {
    hide Parse, Raised;
  }

  /** In every run the running nodes are among the known tasks, no name is empty, and no two
      names share a task id. */
  lemma RunningAreTasks(u: Run, k: nat)
    requires IsRun(u) && k < |u.states|
    ensures var s := u.states[k].s;
            && s.running.Keys <= s.tasks.Keys && "" !in s.tasks
            && forall a, b | a in s.tasks && b in s.tasks && a != b :: s.tasks[a] != s.tasks[b]
  {
    RunKeepsBasics(u, k);
    TasksDiffer(u.states[k].s);
  }

  lemma TasksDiffer(s: Sched)
    requires RunningKnown(s)
    ensures "" !in s.tasks && forall a, b | a in s.tasks && b in s.tasks && a != b :: s.tasks[a] != s.tasks[b]
  {
    hide Parse;
    if "" in s.tasks {
      assert Carries(s.tasks[""], "");
      ParsedNameIsPlain(s.tasks[""]);
    }
    forall a, b | a in s.tasks && b in s.tasks && a != b ensures s.tasks[a] != s.tasks[b] {
      assert Carries(s.tasks[a], a) && Carries(s.tasks[b], b);
    }
  }

  // ---------------------------------------------------------------- names

  /** No name in use has a number above the highest. */
  predicate Numbered(w: World) {
    && 0 <= w.s.highest <= MAX_INT
    && forall n | n in w.used :: NotAbove(n, w.s.highest)
  }

  predicate NotAbove(name: string, highest: int) {
    NameIndex(name).Some? ==> NameIndex(name).value <= highest
  }

  /** The 64-bit number runs over: by one more launch, or by a report of the last number. */
  predicate Overflows(w: World, e: Event) {
    match e
    case Commit(_) => w.s.highest == MAX_INT
    case Status(taskId, _, Running, _) =>
      Parse(taskId).Some? && NameIndex(Parse(taskId).value.name) == Some(MAX_INT) && w.s.highest < MAX_INT
    case _ => false
  }

  lemma IndexInRange(name: string)
    ensures NameIndex(name).Some? ==> NameIndex(name).value <= MAX_INT
  {
  }

  lemma StatusNumbered(w: World, taskId: string, slave: string, report: Report, saved: bool)
    requires Numbered(w)
    ensures Numbered(Reported(w, taskId, slave, report, saved)) <==> !Overflows(w, Status(taskId, slave, report, saved))
  {
    if Parse(taskId).Some? {
      IndexInRange(Parse(taskId).value.name);
    }
    hide Parse, NameIndex;
  }

  lemma CommitNumbered(w: World, ok: bool)
    requires Numbered(w) && Enabled(w, Commit(ok))
    ensures Numbered(After(w, Commit(ok))) <==> !Overflows(w, Commit(ok))
  {
    if w.s.highest < MAX_INT {
      NameIndexOf(w.s.highest + 1);
    }
    hide NameIndex, NameOf;
  }

  /** Numbers stay in order exactly as long as no event runs over. */
  lemma StepNumbered(w: World, e: Event)
    requires Numbered(w) && Enabled(w, e)
    ensures Numbered(After(w, e)) <==> !Overflows(w, e)
  {
    hide UsesSlave, Accepts, Reported, NameIndex, Parse, CanLaunch;
    match e {
      case Status(taskId, slave, report, saved) => StatusNumbered(w, taskId, slave, report, saved);
      case Commit(ok) => CommitNumbered(w, ok);
      case _ =>
    }
  }

  ghost predicate NoOverflow(u: Run, k: nat)
    requires Steps(u) && k <= |u.events|
  {
    forall j | 0 <= j < k :: !Overflows(u.states[j], u.events[j])
  }

  lemma {:induction false} RunNumbered(u: Run, k: nat)
    requires IsRun(u) && k <= |u.events| && NoOverflow(u, k)
    ensures Numbered(u.states[k])
  {
    if k > 0 {
      RunNumbered(u, k - 1);
      hide Numbered, After, Enabled, Overflows;
      assert StepAt(u, k - 1);
      assert !Overflows(u.states[k - 1], u.events[k - 1]);
      StepNumbered(u.states[k - 1], u.events[k - 1]);
    }
  }

  lemma NewNameIsFresh(w: World, o: Offer)
    requires Numbered(w) && w.s.highest < MAX_INT
    ensures NewNode(w.s, o).name !in w.used
  {
    NameIndexOf(w.s.highest + 1);
    assert !NotAbove(NewNode(w.s, o).name, w.s.highest);
  }

  /** As long as nothing ran over, a launch uses a name that was never launched and never
      reported running before. */
  lemma LaunchNamesAreFresh(u: Run, k: nat)
    requires IsRun(u) && k < |u.events| && u.events[k] == Commit(true) && NoOverflow(u, k + 1)
    ensures u.states[k].pc.Cleared? && NewNode(u.states[k].s, u.states[k].pc.o).name !in u.states[k].used
  {
    RunNumbered(u, k);
    assert StepAt(u, k);
    assert !Overflows(u.states[k], u.events[k]);
    NewNameIsFresh(u.states[k], u.states[k].pc.o);
  }

  /** Two launches share a name exactly if the counter stood at the same number. */
  lemma NamesShareExactly(u: Run, j: nat, k: nat)
    requires IsRun(u) && j < |u.events| && k < |u.events| && u.events[j] == u.events[k] == Commit(true)
    ensures u.states[j].pc.Cleared? && u.states[k].pc.Cleared?
    ensures NewNode(u.states[j].s, u.states[j].pc.o).name == NewNode(u.states[k].s, u.states[k].pc.o).name
            <==> u.states[j].s.highest == u.states[k].s.highest
  {
    assert StepAt(u, j) && StepAt(u, k);
    CounterInRange(u, j);
    CounterInRange(u, k);
    NamesDiffer(Increment(u.states[j].s.highest), Increment(u.states[k].s.highest));
    hide NameOf;
  }

  predicate Int64(n: int) {
    -MAX_INT - 1 <= n <= MAX_INT
  }

  lemma StepCounts(w: World, e: Event)
    requires Int64(w.s.highest) && Enabled(w, e)
    ensures Int64(After(w, e).s.highest)
  {
    hide AfterLaunch, Reported;
    match e {
      case Status(taskId, slave, report, saved) => StatusCounts(w, taskId, slave, report, saved);
      case Commit(ok) => CommitCounts(w, ok);
      case _ =>
        if IsOfferEvent(e) {
          OfferEventKeeps(w, e);
        } else if IsLaunchEvent(e) {
          LaunchEventKeeps(w, e);
        }
    }
  }

  lemma CommitCounts(w: World, ok: bool)
    requires Int64(w.s.highest) && w.pc.Cleared?
    ensures Int64(AfterLaunch(w, Commit(ok)).s.highest)
  {
    hide NewNode;
  }

  lemma StatusCounts(w: World, taskId: string, slave: string, report: Report, saved: bool)
    requires Int64(w.s.highest)
    ensures Int64(Reported(w, taskId, slave, report, saved).s.highest)
  {
    if Parse(taskId).Some? {
      IndexInRange(Parse(taskId).value.name);
    }
    hide Parse, NameIndex;
  }

  lemma {:induction false} CounterInRange(u: Run, k: nat)
    requires IsRun(u) && k < |u.states|
    ensures Int64(u.states[k].s.highest)
  {
    if k > 0 {
      CounterInRange(u, k - 1);
      hide Int64, After, Enabled;
      assert StepAt(u, k - 1);
      StepCounts(u.states[k - 1], u.events[k - 1]);
    }
  }

  /** A status about the instance that a scheduler launched clears its pending entry and no
      other, if the host of the offer is plain; an unreadable one clears none. */
  lemma StatusClearsOwn(s0: Sched, o: Offer, s: Sched, slave: string, report: Report)
    requires o.port + 2 < TWO_64 && (report.Terminal? || report.Running?)
    ensures var n := NewNode(s0, o);
            OnStatus(s, String(n), slave, report).pending ==
            if Parse(String(n)).Some? then s.pending - {n.name} else s.pending
    ensures Plain(o.host) ==> Parse(String(NewNode(s0, o))).Some?
  {
    var n := NewNode(s0, o);
    NameIsPlain(Increment(s0.highest));
    RoundTripExactly(n);
    if Parse(String(n)).Some? {
      ParseKeepsName(n);
    }
    hide Parse, Raised, NameOf;
  }
}
