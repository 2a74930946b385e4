/** Runs in which a promise of the scheduler fails, one for each fault, with nothing else at
    fault in them. */
module Overruns {
  import opened Types
  import opened Text
  import opened Config
  import opened OfferCaches
  import opened SchedulerSpec
  import opened SchedulerSafety
  import opened LaunchBounds
  import opened Tenures
  import opened Records

  // ---------------------------------------------------------------- building runs

  /** A run in which nothing goes wrong but one kind of fault. */
  ghost predicate FairRun(u: Run, fault: Fault) {
    Steps(u) && forall k {:trigger FairButAt(u, k, fault)} | 0 <= k < |u.events| :: FairButAt(u, k, fault)
  }

  ghost predicate FairButAt(u: Run, k: nat, fault: Fault)
    requires k < |u.events| && k < |u.states|
  {
    FairBut(u.states[k], u.events[k], fault)
  }

  function End(u: Run): World
    requires |u.states| >= 1
  {
    u.states[|u.states| - 1]
  }

  ghost predicate Joins(u: Run, w: World, w': World, fault: Fault) {
    FairRun(u, fault) && u.states[0] == w && End(u) == w'
  }

  /** Some run with no other fault leads from w to w'. */
  ghost predicate Reaches(w: World, w': World, fault: Fault) {
    exists u :: Joins(u, w, w', fault)
  }

  lemma Stand(w: World, fault: Fault)
    ensures Reaches(w, w, fault)
  {
    assert Joins(Run([w], []), w, w, fault);
  }

  lemma JoinOne(u: Run, w: World, w1: World, e: Event, fault: Fault) returns (u': Run)
    requires Joins(u, w, w1, fault) && Enabled(w1, e) && FairBut(w1, e, fault)
    ensures Joins(u', w, After(w1, e), fault)
  {
    hide Enabled, After, FairBut;
    u' := Run(u.states + [After(w1, e)], u.events + [e]);
    forall k | 0 <= k < |u'.events| ensures StepAt(u', k) && FairButAt(u', k, fault) {
      if k < |u.events| {
        assert StepAt(u, k) && FairButAt(u, k, fault);
      }
    }
  }

  /** One more step. */
  lemma Go(w: World, w1: World, e: Event, fault: Fault)
    requires Reaches(w, w1, fault) && Enabled(w1, e) && FairBut(w1, e, fault)
    ensures Reaches(w, After(w1, e), fault)
  {
    hide Joins, Enabled, After, FairBut;
    var u :| Joins(u, w, w1, fault);
    var u' := JoinOne(u, w, w1, e, fault);
  }

  /** Events that are never at fault. */
  predicate Harmless(e: Event) {
    IsOfferEvent(e) || e.Check? || e.Pop? || e.Recheck? || e.Launch? || e.Disconnect? || e.ReseedBegin? || e.SyncCheck? || e.SyncDone?
  }

  lemma HarmlessFair(w: World, e: Event, fault: Fault)
    requires Harmless(e)
    ensures FairBut(w, e, fault)
  {
  }

  lemma Move(w: World, w1: World, e: Event, w2: World, fault: Fault)
    requires Reaches(w, w1, fault) && Enabled(w1, e) && w2 == After(w1, e)
    requires Harmless(e) || FairBut(w1, e, fault)
    ensures Reaches(w, w2, fault)
  {
    hide Reaches, Enabled, After, FairBut;
    if Harmless(e) {
      HarmlessFair(w1, e, fault);
    }
    Go(w, w1, e, fault);
  }

  /** A run without faults from a new scheduler is a tenure. */
  lemma ReachesTenure(w: World, w': World)
    requires Fresh(w) && Inheritable(w) && Reaches(w, w', NoFault)
    ensures Tenure(w')
  {
    var u :| Joins(u, w, w', NoFault);
    hide Tenure, Inheritable, Fresh;
    forall k | 0 <= k < |u.events| ensures FairAt(u, k) {
      assert StepAt(u, k) && FairButAt(u, k, NoFault);
    }
    TenureHolds(u, |u.states| - 1);
  }

  // ---------------------------------------------------------------- one launch

  /** The scheduler would launch, and the offer is one that it takes. */
  ghost predicate Poised(w: World, o: Offer) {
    && CanLaunch(w.s) && w.pc.Idle? && o.id !in w.received && o.id !in w.cache
    && Accepts(w, o) && (w.s.single ==> !UsesSlave(w.s, o.slave))
  }

  function Arrived(w: World, o: Offer, stage: Stage): World {
    w.(received := w.received + {o.id}, arriving := w.arriving[o.id := Arrival(o, stage)])
  }

  lemma ArrivedSteps(w: World, o: Offer)
    requires w.s.mutable && o.id !in w.received && (w.s.single ==> !UsesSlave(w.s, o.slave))
    ensures Enabled(w, Arrive(o)) && After(w, Arrive(o)) == Arrived(w, o, New)
    ensures Enabled(Arrived(w, o, New), CheckState(o.id))
    ensures After(Arrived(w, o, New), CheckState(o.id)) == Arrived(w, o, StateOK)
    ensures Enabled(Arrived(w, o, StateOK), CheckSlave(o.id))
    ensures After(Arrived(w, o, StateOK), CheckSlave(o.id)) == Arrived(w, o, SlaveOK)
  {
    hide UsesSlave;
  }

  function Stocked(w: World, o: Offer): World {
    w.(received := w.received + {o.id}, arriving := w.arriving[o.id := Arrival(o, SlaveOK)] - {o.id},
       cache := w.cache[o.id := o], timers := w.timers + {o.id})
  }

  lemma StockedStep(w: World, o: Offer)
    requires Accepts(w, o)
    ensures Enabled(Arrived(w, o, SlaveOK), SchedulerSpec.Push(o.id))
    ensures After(Arrived(w, o, SlaveOK), SchedulerSpec.Push(o.id)) == Stocked(w, o)
  {
  }

  /** An offer comes in and is cached. */
  lemma StockUp(w0: World, w: World, o: Offer, fault: Fault)
    requires Reaches(w0, w, fault) && Poised(w, o)
    ensures Reaches(w0, Stocked(w, o), fault)
  {
    assert w.s.mutable;
    hide Reaches, Enabled, After, UsesSlave, Accepts, CanLaunch, Arrived, Stocked;
    ArrivedSteps(w, o);
    StockedStep(w, o);
    Move(w0, w, Arrive(o), Arrived(w, o, New), fault);
    Move(w0, Arrived(w, o, New), CheckState(o.id), Arrived(w, o, StateOK), fault);
    Move(w0, Arrived(w, o, StateOK), CheckSlave(o.id), Arrived(w, o, SlaveOK), fault);
    Move(w0, Arrived(w, o, SlaveOK), SchedulerSpec.Push(o.id), Stocked(w, o), fault);
  }

  function Bare(w: World, o: Offer): World {
    w.(cache := w.cache - {o.id})
  }

  lemma OutSteps(w: World, o: Offer)
    requires CanLaunch(w.s) && w.pc.Idle? && o.id in w.cache && w.cache[o.id] == o
    requires w.s.single ==> !UsesSlave(w.s, o.slave)
    ensures var b := Bare(w, o);
            && Enabled(w, Check(true)) && After(w, Check(true)) == w.(pc := Checked)
            && Enabled(w.(pc := Checked), SchedulerSpec.Pop(o.id))
            && After(w.(pc := Checked), SchedulerSpec.Pop(o.id)) == b.(pc := Popped(o))
            && Enabled(b.(pc := Popped(o)), Validate) && After(b.(pc := Popped(o)), Validate) == b.(pc := Held(o))
            && Enabled(b.(pc := Held(o)), Recheck(true)) && After(b.(pc := Held(o)), Recheck(true)) == b.(pc := Cleared(o))
  {
    hide CanLaunch, UsesSlave;
  }

  /** The launcher cannot misjudge the slave of the offer. */
  ghost predicate Elsewhere(w: World, o: Offer) {
    w.sync.Synced? || (w.s.single ==> forall a | a in w.alive && a in w.nodes :: w.nodes[a].slave != o.slave)
  }

  lemma ElsewhereFair(w: World, o: Offer, fault: Fault)
    requires Elsewhere(w, o) && w.pc == Popped(o)
    ensures FairBut(w, Validate, fault)
  {
  }

  /** The launcher takes the offer and passes all its checks. */
  lemma SetOut(w0: World, w: World, o: Offer, fault: Fault)
    requires Reaches(w0, w, fault) && CanLaunch(w.s) && w.pc.Idle? && o.id in w.cache && w.cache[o.id] == o
    requires (w.s.single ==> !UsesSlave(w.s, o.slave)) && Elsewhere(w, o)
    ensures Reaches(w0, Bare(w, o).(pc := Cleared(o)), fault)
  {
    ElsewhereFair(Bare(w, o).(pc := Popped(o)), o, fault);
    hide Reaches, Enabled, After, UsesSlave, CanLaunch, Bare, FairBut;
    OutSteps(w, o);
    var b := Bare(w, o);
    Move(w0, w, Check(true), w.(pc := Checked), fault);
    Move(w0, w.(pc := Checked), SchedulerSpec.Pop(o.id), b.(pc := Popped(o)), fault);
    Move(w0, b.(pc := Popped(o)), Validate, b.(pc := Held(o)), fault);
    Move(w0, b.(pc := Held(o)), Recheck(true), b.(pc := Cleared(o)), fault);
  }

  function Away(w: World, o: Offer): World {
    var n := NewNode(w.s, o);
    w.(pc := Idle, s := Committed(w.s, o), nodes := w.nodes[n.name := n], used := w.used + {n.name},
       alive := w.alive + {n.name}, fates := w.fates + [(o.id, Used)])
  }

  lemma AwaySteps(w: World, o: Offer)
    requires w.pc == Cleared(o)
    ensures Enabled(w, Commit(true)) && Enabled(After(w, Commit(true)), Launch)
    ensures After(After(w, Commit(true)), Launch) == Away(w, o)
  {
    hide NewNode, Committed;
  }

  lemma CommitFair(w: World, fault: Fault)
    requires w.s.highest == MAX_INT ==> fault.RunsOver?
    ensures FairBut(w, Commit(true), fault)
  {
  }

  lemma Depart(w0: World, w: World, o: Offer, fault: Fault)
    requires Reaches(w0, w, fault) && w.pc == Cleared(o) && (w.s.highest == MAX_INT ==> fault.RunsOver?)
    ensures Reaches(w0, Away(w, o), fault)
  {
    CommitFair(w, fault);
    hide Reaches, Enabled, After, Away, FairBut;
    AwaySteps(w, o);
    Move(w0, w, Commit(true), After(w, Commit(true)), fault);
    Move(w0, After(w, Commit(true)), Launch, Away(w, o), fault);
  }

  lemma ElsewhereStill(w: World, w': World, o: Offer)
    requires Elsewhere(w, o) && w'.sync == w.sync && w'.alive == w.alive && w'.nodes == w.nodes && w'.s.single == w.s.single
    ensures Elsewhere(w', o)
  {
  }

  /** What one launch changes. */
  ghost predicate LaunchedBy(w: World, o: Offer, w': World) {
    var n := NewNode(w.s, o);
    && w'.s == Committed(w.s, o) && w'.pc.Idle? && w'.sync == w.sync
    && w'.nodes == w.nodes[n.name := n] && w'.alive == w.alive + {n.name}
    && w'.cache == w.cache && w'.received == w.received + {o.id} && w'.stale == w.stale && w'.store == w.store
  }

  /** An offer comes in and is used for a launch. */
  lemma LaunchOne(w0: World, w: World, o: Offer, fault: Fault) returns (w': World)
    requires Reaches(w0, w, fault) && Poised(w, o) && Elsewhere(w, o) && w.s.highest < MAX_INT
    ensures Reaches(w0, w', fault) && LaunchedBy(w, o, w')
  {
    hide Reaches, CanLaunch, UsesSlave, NewNode, Committed, Accepts, Elsewhere;
    StockUp(w0, w, o, fault);
    var w1 := Stocked(w, o);
    ElsewhereStill(w, w1, o);
    SetOut(w0, w1, o, fault);
    var w2 := Bare(w1, o).(pc := Cleared(o));
    Depart(w0, w2, o, fault);
    w' := Away(w2, o);
    assert w.cache[o.id := o] - {o.id} == w.cache;
  }

  // ---------------------------------------------------------------- reports

  /** The task ids of the instances can be read, and none has the last number. */
  ghost predicate Legible(nodes: map<string, Node>, names: set<string>) {
    forall a {:trigger LegibleAs(nodes, a)} | a in names :: LegibleAs(nodes, a)
  }

  predicate LegibleAs(nodes: map<string, Node>, a: string) {
    a in nodes && Carries(String(nodes[a]), a) && NameIndex(a) != Some(MAX_INT)
  }

  lemma LegibleStill(nodes: map<string, Node>, names: set<string>, n: Node)
    requires Legible(nodes, names) && n.name !in names
    ensures Legible(nodes[n.name := n], names)
  {
    hide Carries, NameIndex;
    forall a | a in names ensures LegibleAs(nodes[n.name := n], a) {
      assert LegibleAs(nodes, a);
    }
  }

  lemma IsLegible(nodes: map<string, Node>, a: string)
    requires LegibleAs(nodes, a)
    ensures a in nodes
  {
  }

  function AfterRunning(w: World, a: string): World
    requires a in w.nodes
  {
    Reported(w, String(w.nodes[a]), w.nodes[a].slave, Running, true)
  }

  lemma ReportChanges(w: World, a: string)
    requires LegibleAs(w.nodes, a) && a in w.alive && a !in w.s.pending
    ensures var w' := AfterRunning(w, a);
            && w'.s.running.Keys == w.s.running.Keys + {a} && w'.s.pending == w.s.pending && w'.s.desired == w.s.desired
            && w'.alive == w.alive && w'.nodes == w.nodes
    ensures forall fault :: FairBut(w, Status(String(w.nodes[a]), w.nodes[a].slave, Running, true), fault)
  {
    hide Parse, String, Raised, NameIndex;
  }

  /** All of some living instances report that they run. */
  lemma {:induction false} ReportAll(w0: World, w: World, todo: set<string>, fault: Fault) returns (w': World)
    requires Reaches(w0, w, fault) && todo <= w.alive && todo !! w.s.pending && Legible(w.nodes, todo)
    ensures Reaches(w0, w', fault) && w'.s.running.Keys == w.s.running.Keys + todo
    ensures w'.s.pending == w.s.pending && w'.s.desired == w.s.desired
    decreases todo
  {
    hide Reaches, LegibleAs, AfterRunning, FairBut;
    if todo == {} {
      w' := w;
    } else {
      var a :| a in todo;
      assert LegibleAs(w.nodes, a);
      IsLegible(w.nodes, a);
      ReportChanges(w, a);
      RunningStep(w0, w, a, fault);
      var w1 := AfterRunning(w, a);
      w' := ReportAll(w0, w1, todo - {a}, fault);
      assert w.s.running.Keys + {a} + (todo - {a}) == w.s.running.Keys + todo;
    }
  }

  lemma RunningStep(w0: World, w: World, a: string, fault: Fault)
    requires Reaches(w0, w, fault) && a in w.nodes && FairBut(w, Status(String(w.nodes[a]), w.nodes[a].slave, Running, true), fault)
    ensures Reaches(w0, AfterRunning(w, a), fault)
  {
    hide Reaches, Reported, FairBut, String;
    Go(w0, w, Status(String(w.nodes[a]), w.nodes[a].slave, Running, true), fault);
  }

  // ---------------------------------------------------------------- one instance too many

  ghost predicate Exceeds(w: World) {
    |w.s.running.Keys| + |w.s.pending| > w.s.desired
  }

  /** The scheduler may launch, but the instances it wants already live, some unknown to it. */
  ghost predicate Blind(w: World, o: Offer) {
    && Poised(w, o) && w.s.running.Keys <= w.alive && |w.alive| >= w.s.desired
    && NewNode(w.s, o).name !in w.alive && Legible(w.nodes, w.alive) && Elsewhere(w, o)
  }

  lemma BlindStart(w: World, o: Offer, w1: World)
    requires Blind(w, o) && LaunchedBy(w, o, w1)
    ensures var name := NewNode(w.s, o).name;
            && w1.s.pending == {name} && w1.s.running == w.s.running && w1.s.desired == w.s.desired
            && w.alive <= w1.alive && name !in w.alive
            && w.s.running.Keys + w.alive == w.alive && |w.alive| >= w.s.desired
    ensures Legible(w1.nodes, w.alive)
  {
    LegibleStill(w.nodes, w.alive, NewNode(w.s, o));
    hide Legible, NewNode, Accepts, UsesSlave, Elsewhere;
    assert w.s.pending == {};
  }

  /** Then it launches one too many, and learns of the others only afterwards. */
  lemma BlindLaunch(w0: World, w: World, o: Offer, fault: Fault) returns (w': World)
    requires Reaches(w0, w, fault) && Blind(w, o) && w.s.highest < MAX_INT
    ensures Reaches(w0, w', fault) && Exceeds(w')
  {
    hide Reaches, Poised, LaunchedBy, Legible, NewNode, Elsewhere;
    var w1 := LaunchOne(w0, w, o, fault);
    BlindStart(w, o, w1);
    w' := ReportAll(w0, w1, w.alive, fault);
    assert w'.s.running.Keys == w.alive;
  }

  /** The offer is new and would be taken by a scheduler that knows of no instance. */
  ghost predicate Welcome(w: World, o: Offer) {
    o.id !in w.received && o.id !in w.cache && Accepts(w, o)
  }

  lemma BlindIs(w: World, o: Offer)
    requires w.s.mutable && !w.s.reseeding && w.pc.Idle? && w.s.pending == {} && w.s.running == map[] && w.s.desired > 0
    requires Welcome(w, o) && |w.alive| >= w.s.desired && NewNode(w.s, o).name !in w.alive
    requires Legible(w.nodes, w.alive) && Elsewhere(w, o)
    ensures Blind(w, o)
  {
    hide NewNode, Legible, Accepts, Elsewhere;
    assert |w.s.running| == 0;
  }

  lemma SameName(s: Sched, s': Sched, o: Offer)
    requires s.highest == s'.highest
    ensures NewNode(s, o).name == NewNode(s', o).name && (PortsFit(NewNode(s, o)) <==> PortsFit(NewNode(s', o)))
  {
  }

  // ---------------------------------------------------------------- synchronised too soon

  function Hearing(w: World, names: set<string>): World
    requires names <= w.nodes.Keys
  {
    w.(s := w.s.(heardFrom := w.s.heardFrom + Ids(w.nodes, names)))
  }

  function Ids(nodes: map<string, Node>, names: set<string>): set<string>
    requires names <= nodes.Keys
  {
    set a | a in names :: String(nodes[a])
  }

  /** The record mentions the living instances and no others. */
  ghost predicate Kept(w: World) {
    w.alive <= w.nodes.Keys && w.store.Keys == Ids(w.nodes, w.alive)
  }

  lemma KeptCovers(w: World)
    requires Kept(w)
    ensures Covers(w, w.store) && Safe(w)
  {
    hide String, Accounted;
  }

  lemma IdsSplit(nodes: map<string, Node>, names: set<string>, a: string)
    requires names <= nodes.Keys && a in names
    ensures Ids(nodes, names) == {String(nodes[a])} + Ids(nodes, names - {a})
  {
    hide String;
  }

  lemma StartingStep(w: World, a: string)
    requires LegibleAs(w.nodes, a)
    ensures var e := Status(String(w.nodes[a]), w.nodes[a].slave, Starting, true);
            Enabled(w, e) && FairBut(w, e, TooEarly) && After(w, e) == Hearing(w, {a})
  {
    hide Parse, String, NameIndex;
    assert Ids(w.nodes, {a}) == {String(w.nodes[a])};
  }

  /** All of some instances report that they start. */
  lemma {:induction false} StartingAll(w0: World, w: World, names: set<string>)
    requires Reaches(w0, w, TooEarly) && Legible(w.nodes, names) && names <= w.nodes.Keys
    ensures Reaches(w0, Hearing(w, names), TooEarly)
    decreases names
  {
    hide Reaches, LegibleAs, FairBut, Enabled, After, String;
    if names == {} {
      assert Ids(w.nodes, names) == {};
      assert w.s.heardFrom + {} == w.s.heardFrom;
      assert Hearing(w, names) == w;
    } else {
      var a :| a in names;
      assert LegibleAs(w.nodes, a);
      StartingStep(w, a);
      Go(w0, w, Status(String(w.nodes[a]), w.nodes[a].slave, Starting, true), TooEarly);
      var w1 := Hearing(w, {a});
      StartingAll(w0, w1, names - {a});
      IdsSplit(w.nodes, names, a);
      assert Ids(w.nodes, {a}) == {String(w.nodes[a])};
      assert w.s.heardFrom + Ids(w.nodes, {a}) + Ids(w.nodes, names - {a}) == w.s.heardFrom + Ids(w.nodes, names);
      assert Hearing(w1, names - {a}) == Hearing(w, names);
    }
  }

  function Loaded(w: World): World {
    w.(s := w.s.(reconciliationInfo := w.store), sync := Waiting(w.store.Keys), stale := w.stale + [w.sync])
  }

  lemma FetchFair(w: World, fault: Fault)
    requires Covers(w, w.store) || fault.Incomplete?
    ensures FairBut(w, Fetch, fault)
  {
    hide Covers;
  }

  lemma LoadFair(w: World, fault: Fault)
    ensures FairBut(w, Load, fault)
  {
  }

  /** Read the store and take it. */
  lemma ReadIn(w0: World, w: World, fault: Fault)
    requires Reaches(w0, w, fault) && w.sync.Loading? && (Covers(w, w.store) || fault.Incomplete?)
    ensures Reaches(w0, w.(s := w.s.(reconciliationInfo := w.store), sync := Waiting(w.store.Keys)), fault)
  {
    hide Reaches, FairBut, Covers;
    FetchFair(w, fault);
    var w1 := w.(sync := Fetched(w.store));
    Move(w0, w, Fetch, w1, fault);
    LoadFair(w1, fault);
    Move(w0, w1, Load, w.(s := w.s.(reconciliationInfo := w.store), sync := Waiting(w.store.Keys)), fault);
  }

  /** Register, then read the store. */
  lemma Enrol(w: World, fault: Fault)
    requires Fresh(w) && (Covers(w, w.store) || fault.Incomplete?)
    ensures Reaches(w, Loaded(w), fault)
  {
    hide Reaches, FairBut, Covers;
    var w1 := Enlist(w, fault);
    SameCovers(w, w1, w.store);
    ReadIn(w, w1, fault);
    assert w.stale + [w.sync] == [Unregistered];
  }

  lemma Enlist(w: World, fault: Fault) returns (w': World)
    requires Fresh(w)
    ensures Reaches(w, w', fault) && w' == w.(sync := Loading, stale := [Unregistered])
  {
    hide Reaches, FairBut;
    Stand(w, fault);
    NotMutableFair(w, fault);
    w' := After(w, Register);
    Move(w, w, Register, w', fault);
  }

  function Opened(w: World): World {
    w.(s := w.s.(mutable := true), sync := Synced)
  }

  /** The last steps of a synchronisation that has heard of all it waits for. */
  lemma Open(w0: World, w: World, fault: Fault)
    requires Reaches(w0, w, fault) && w.sync.Waiting? && w.s.reconciliationInfo.Keys <= w.s.heardFrom
    ensures Reaches(w0, Opened(w), fault)
  {
    hide Reaches;
    var w1 := w.(sync := InSync(w.sync.loaded));
    Move(w0, w, SyncCheck, w1, fault);
    Move(w0, w1, SyncDone, Opened(w), fault);
  }

  /** The scheduler of w has become mutable and knows of no instance. */
  ghost predicate Unaware(w: World, w1: World) {
    && w1.s.mutable && !w1.s.reseeding && w1.pc.Idle? && w1.s.pending == {} && w1.s.running == map[]
    && w1.cache == map[] && w1.received == {} && w1.nodes == w.nodes && w1.alive == w.alive
    && w1.s.desired == w.s.desired && w1.s.single == w.s.single && w1.s.highest == w.s.highest
  }

  /** A new scheduler that finds all the instances it wants, and an offer for another. */
  ghost predicate Complete(w: World, o: Offer) {
    && Fresh(w) && Inheritable(w) && |w.alive| == w.s.desired > 0 && w.s.highest < MAX_INT
    && Legible(w.nodes, w.alive) && o.fits && NewNode(w.s, o).name !in w.alive && Elsewhere(w, o)
  }

  lemma UnawareOverruns(w: World, w1: World, o: Offer, fault: Fault) returns (w': World)
    requires Complete(w, o) && Unaware(w, w1) && Reaches(w, w1, fault)
    ensures Reaches(w, w', fault) && Exceeds(w')
  {
    hide Reaches, NewNode, Exceeds, Legible;
    SameName(w.s, w1.s, o);
    BlindIs(w1, o);
    w' := BlindLaunch(w, w1, o, fault);
  }

  /** TASK_STARTING counts as word from an instance but does not enter it: a new scheduler with
      a complete store, as many instances living as it wants, and nothing else at fault,
      synchronises on such reports and then launches one too many. */
  lemma StartingOverruns(w: World, o: Offer) returns (w': World)
    requires Complete(w, o) && Kept(w)
    ensures Reaches(w, w', TooEarly) && Exceeds(w')
  {
    hide Reaches, NewNode, Exceeds, Legible, String, Covers;
    KeptCovers(w);
    Enrol(w, TooEarly);
    var w1 := Loaded(w);
    StartingAll(w, w1, w.alive);
    var w2 := Hearing(w1, w.alive);
    Open(w, w2, TooEarly);
    w' := UnawareOverruns(w, Opened(w2), o, TooEarly);
  }

  /** Instances that the store does not mention are not waited for, with the same end. */
  lemma MissingOverruns(w: World, o: Offer) returns (w': World)
    requires Complete(w, o) && w.store == map[]
    ensures Reaches(w, w', Incomplete) && Exceeds(w')
  {
    hide Reaches, NewNode, Exceeds, Legible;
    Enrol(w, Incomplete);
    var w1 := Loaded(w);
    Open(w, w1, Incomplete);
    w' := UnawareOverruns(w, Opened(w1), o, Incomplete);
  }

  // ---------------------------------------------------------------- mutable out of turn

  /** A reseeding that ends while the scheduler still waits makes it mutable all the same. */
  lemma ReseedSkipsSync(w: World) returns (w': World)
    requires Fresh(w) && Kept(w) && w.alive != {}
    ensures Reaches(w, w', Reseeds) && Unaware(w, w')
    ensures w'.sync == Waiting(w.store.Keys) && !(w.store.Keys <= w'.s.heardFrom)
  {
    hide Reaches, Covers, String;
    KeptCovers(w);
    Enrol(w, Reseeds);
    var w1 := Loaded(w);
    var w2 := w1.(s := w1.s.(reseeding := true));
    w' := w1.(s := w1.s.(mutable := true));
    Move(w, w1, ReseedBegin, w2, Reseeds);
    ReseedFair(w2);
    Move(w, w2, ReseedRun, w', Reseeds);
    var a :| a in w.alive;
    assert String(w.nodes[a]) in w.store.Keys;
  }

  lemma ReseedFair(w: World)
    ensures FairBut(w, ReseedRun, Reseeds)
  {
  }

  lemma ReseedOverruns(w: World, o: Offer) returns (w': World)
    requires Complete(w, o) && Kept(w)
    ensures Reaches(w, w', Reseeds) && Exceeds(w')
  {
    hide Reaches, NewNode, Exceeds, Legible, String, Unaware;
    var w1 := ReseedSkipsSync(w);
    w' := UnawareOverruns(w, w1, o, Reseeds);
  }

  /** The instances report that they run and are entered. Their numbers are not above the
      scheduler's own, so that nothing else changes. */
  ghost predicate Entered(w: World, w': World, names: set<string>)
    requires names <= w.nodes.Keys
  {
    && w' == w.(s := w'.s, used := w'.used, store := w'.store)
    && (if names == {} then w' == w else w'.store == w'.s.reconciliationInfo)
    && w'.s == w.s.(heardFrom := w.s.heardFrom + Ids(w.nodes, names), reconciliationInfo := w'.s.reconciliationInfo,
                    running := w'.s.running, tasks := w'.s.tasks)
    && w'.s.running.Keys == w.s.running.Keys + names
    && w'.s.reconciliationInfo.Keys == w.s.reconciliationInfo.Keys + Ids(w.nodes, names)
  }

  ghost predicate Below(w: World, names: set<string>) {
    forall a {:trigger BelowAs(w, a)} | a in names :: BelowAs(w, a)
  }

  predicate BelowAs(w: World, a: string) {
    LegibleAs(w.nodes, a) && a in w.alive && a !in w.s.pending
    && (NameIndex(a).Some? ==> NameIndex(a).value <= w.s.highest)
  }

  lemma EnterStep(w: World, a: string)
    requires BelowAs(w, a)
    ensures Entered(w, AfterRunning(w, a), {a})
    ensures forall fault :: FairBut(w, Status(String(w.nodes[a]), w.nodes[a].slave, Running, true), fault)
  {
    hide Parse, String, NameIndex;
    assert Ids(w.nodes, {a}) == {String(w.nodes[a])};
    assert w.s.pending - {a} == w.s.pending;
  }

  lemma EnteredTwice(w: World, w1: World, w2: World, a: string, names: set<string>)
    requires names <= w.nodes.Keys && a in names && Entered(w, w1, {a}) && Entered(w1, w2, names - {a})
    ensures Entered(w, w2, names)
  {
    hide String, Ids;
    IdsTwice(w.nodes, names, a, w.s.heardFrom);
    IdsTwice(w.nodes, names, a, w.s.reconciliationInfo.Keys);
    assert w.s.running.Keys + {a} + (names - {a}) == w.s.running.Keys + names;
  }

  lemma IdsTwice(nodes: map<string, Node>, names: set<string>, a: string, others: set<string>)
    requires names <= nodes.Keys && a in names
    ensures others + Ids(nodes, {a}) + Ids(nodes, names - {a}) == others + Ids(nodes, names)
  {
    IdsSplit(nodes, names, a);
    assert Ids(nodes, {a}) == {String(nodes[a])};
    hide String;
  }

  lemma BelowStill(w: World, w1: World, names: set<string>, names': set<string>)
    requires Below(w, names) && names' <= names
    requires w1.nodes == w.nodes && w1.alive == w.alive && w1.s.pending == w.s.pending && w1.s.highest == w.s.highest
    ensures Below(w1, names')
  {
    hide LegibleAs, NameIndex;
    forall a | a in names' ensures BelowAs(w1, a) {
      assert BelowAs(w, a);
    }
  }

  lemma {:induction false} EnterAll(w0: World, w: World, names: set<string>, fault: Fault) returns (w': World)
    requires Reaches(w0, w, fault) && Below(w, names) && names <= w.nodes.Keys
    ensures Reaches(w0, w', fault) && Entered(w, w', names)
    decreases names
  {
    hide Reaches, Below, BelowAs, AfterRunning, FairBut, String;
    if names == {} {
      assert Ids(w.nodes, names) == {};
      assert w.s.heardFrom + {} == w.s.heardFrom;
      w' := w;
    } else {
      var a :| a in names;
      BelowIn(w, names, a);
      EnterStep(w, a);
      RunningStep(w0, w, a, fault);
      var w1 := AfterRunning(w, a);
      BelowStill(w, w1, names, names - {a});
      w' := EnterAll(w0, w1, names - {a}, fault);
      EnteredTwice(w, w1, w', a, names);
    }
  }

  lemma BelowIn(w: World, names: set<string>, a: string)
    requires Below(w, names) && a in names
    ensures BelowAs(w, a)
  {
  }

  /** So does the attempt of an earlier registration that ends after a new one, although it
      read a complete store and heard from every instance. */
  lemma StaleSkipsSync(w: World) returns (w': World)
    requires Fresh(w) && Below(w, w.alive) && Kept(w)
    ensures Reaches(w, w', Lingers) && Unaware(w, w') && w'.sync == Loading && w'.stale == [Unregistered, Synced]
  {
    hide Reaches, Below, Ids, Covers;
    KeptCovers(w);
    Enrol(w, Lingers);
    var w1 := Loaded(w);
    BelowStill(w, w1, w.alive, w.alive);
    var w2 := EnterAll(w, w1, w.alive, Lingers);
    assert w2.s.reconciliationInfo.Keys <= w2.s.heardFrom;
    w' := LateEnd(w, w2);
  }

  lemma LateEnd(w0: World, w: World) returns (w': World)
    requires Reaches(w0, w, Lingers) && w.sync.Waiting? && w.s.reconciliationInfo.Keys <= w.s.heardFrom
    requires w.stale == [Unregistered] && !w.s.mutable
    ensures Reaches(w0, w', Lingers) && w'.sync == Loading && w'.stale == [Unregistered, Synced]
    ensures w' == w.(s := Initialized(w.s).(mutable := true), sync := Loading, stale := w'.stale)
  {
    hide Reaches, FairBut;
    var w1 := w.(sync := InSync(w.sync.loaded));
    Move(w0, w, SyncCheck, w1, Lingers);
    var w2 := w.(s := Initialized(w.s), sync := Loading, stale := [Unregistered, InSync(w.sync.loaded)]);
    NotMutableFair(w1, Lingers);
    Move(w0, w1, Register, w2, Lingers);
    w' := LateDone(w0, w2);
  }

  lemma LateDone(w0: World, w: World) returns (w': World)
    requires Reaches(w0, w, Lingers) && |w.stale| == 2 && w.stale[1].InSync?
    ensures Reaches(w0, w', Lingers) && w' == w.(s := w.s.(mutable := true), stale := [w.stale[0], Synced])
  {
    hide Reaches, FairBut;
    LingersFair(w, 1);
    w' := After(w, StaleDone(1));
    assert w.stale[1 := Synced] == [w.stale[0], Synced];
    Move(w0, w, StaleDone(1), w', Lingers);
  }

  lemma NotMutableFair(w: World, fault: Fault)
    requires !w.s.mutable
    ensures FairBut(w, Register, fault)
  {
  }

  lemma LingersFair(w: World, i: nat)
    ensures FairBut(w, StaleDone(i), Lingers)
  {
  }

  lemma StaleOverruns(w: World, o: Offer) returns (w': World)
    requires Complete(w, o) && Below(w, w.alive) && Kept(w)
    ensures Reaches(w, w', Lingers) && Exceeds(w')
  {
    hide Reaches, NewNode, Exceeds, Legible, Unaware, Below, Kept;
    var w1 := StaleSkipsSync(w);
    w' := UnawareOverruns(w, w1, o, Lingers);
  }

  // ---------------------------------------------------------------- a settled scheduler

  /** A scheduler with a complete store hears from all instances. */
  lemma HearAll(w0: World, w: World, fault: Fault) returns (w': World)
    requires Reaches(w0, w, fault) && w.sync.Waiting? && w.s.reconciliationInfo == w.store && w.s.heardFrom == {}
    requires w.s.running == map[] && Below(w, w.alive) && Kept(w)
    ensures Reaches(w0, w', fault) && w' == w.(s := w'.s, used := w'.used, store := w'.store, sync := Synced) && Kept(w')
    ensures w'.s.running.Keys == w.alive
    ensures w'.s == w.s.(mutable := true, heardFrom := w'.s.heardFrom, reconciliationInfo := w'.s.reconciliationInfo,
                         running := w'.s.running, tasks := w'.s.tasks)
  {
    hide Reaches, Below, Ids;
    var w2 := EnterAll(w0, w, w.alive, fault);
    assert w2.s.reconciliationInfo.Keys == w.store.Keys;
    assert w2.s.reconciliationInfo.Keys <= w2.s.heardFrom;
    Open(w0, w2, fault);
    w' := Opened(w2);
  }

  /** A new scheduler that has heard from all instances. */
  lemma Settled(w: World, fault: Fault) returns (w': World)
    requires Fresh(w) && Below(w, w.alive) && Kept(w)
    ensures Reaches(w, w', fault) && w'.s.mutable && !w'.s.reseeding && w'.pc.Idle? && w'.s.pending == {} && w'.cache == map[]
    ensures w'.received == {} && w'.s.running.Keys == w.alive && w'.nodes == w.nodes && w'.alive == w.alive
    ensures w'.s.desired == w.s.desired && w'.s.single == w.s.single && w'.s.highest == w.s.highest && Kept(w') && w'.sync.Synced?
  {
    hide Reaches, Below, Ids, Covers;
    KeptCovers(w);
    Enrol(w, fault);
    BelowStill(w, Loaded(w), w.alive, w.alive);
    w' := HearAll(w, Loaded(w), fault);
  }

  /** A registration that finds the scheduler mutable: with all its instances running it forgets
      them, launches another one, and then hears from all of them. */
  lemma RegistrationOverruns(w: World, o: Offer) returns (w': World)
    requires Complete(w, o) && Below(w, w.alive) && Kept(w)
    ensures Reaches(w, w', FoundMutable) && Exceeds(w')
  {
    hide Reaches, NewNode, Exceeds, Legible, Below, Kept;
    var w1 := Settled(w, FoundMutable);
    var w2 := After(w1, Register);
    Move(w, w1, Register, w2, FoundMutable);
    w' := UnawareOverruns(w, w2, o, FoundMutable);
  }

  /** A report that an instance runs which does not exist. */
  lemma PhantomOverruns(w: World, x: Node) returns (w': World)
    requires Fresh(w) && |w.alive| == w.s.desired && Below(w, w.alive) && Kept(w)
    requires Carries(String(x), x.name) && NameIndex(x.name) != Some(MAX_INT) && x.name !in w.alive
    ensures Reaches(w, w', Untruthful) && Exceeds(w')
  {
    hide Reaches, Below, Kept, String, NameIndex, Parse;
    var w1 := Settled(w, Untruthful);
    var e := Status(String(x), x.slave, Running, true);
    w' := After(w1, e);
    Go(w, w1, e, Untruthful);
    assert w'.s.running.Keys == w.alive + {x.name};
  }

  // ---------------------------------------------------------------- a record that is lost

  /** The scheduler loses its own record: one instance reports right after the registration,
      the scheduler writes down that one alone, reads it back, and does not wait for the
      others. Everything that it was given was complete. */
  lemma OverwriteOverruns(w: World, o: Offer, a: string) returns (w': World)
    requires Complete(w, o) && Below(w, w.alive) && Kept(w) && a in w.alive && w.s.desired > 1
    ensures Safe(w) && Reaches(w, w', Incomplete) && Exceeds(w')
  {
    hide Reaches, NewNode, Exceeds, Legible, Below, Kept, Covers, String, Entered;
    KeptCovers(w);
    var w1 := Enlist(w, Incomplete);
    BelowStill(w, w1, w.alive, {a});
    IsNode(w, a);
    BelowIn(w1, {a}, a);
    EnterStep(w1, a);
    RunningStep(w, w1, a, Incomplete);
    var w2 := AfterRunning(w1, a);
    OnlyOne(w, w1, w2, a);
    ReadIn(w, w2, Incomplete);
    var w3 := w2.(s := w2.s.(reconciliationInfo := w2.store), sync := Waiting(w2.store.Keys));
    Open(w, w3, Incomplete);
    var w4 := Opened(w3);
    OneIsBlind(w, w4, o, a);
    w' := BlindLaunch(w, w4, o, Incomplete);
  }

  lemma IsNode(w: World, a: string)
    requires Kept(w) && a in w.alive
    ensures a in w.nodes
  {
  }

  lemma OnlyOne(w: World, w1: World, w2: World, a: string)
    requires Fresh(w) && w1 == w.(sync := Loading, stale := [Unregistered]) && a in w.nodes && w2 == AfterRunning(w1, a)
    requires Entered(w1, w2, {a}) && BelowAs(w1, a)
    ensures w2.store.Keys <= w2.s.heardFrom && w2.s.running.Keys == {a} && w2.s.running[a].slave == w.nodes[a].slave
    ensures w2 == w.(sync := Loading, stale := [Unregistered], s := w2.s, used := w2.used, store := w2.store)
    ensures w2.s == w.s.(heardFrom := w2.s.heardFrom, reconciliationInfo := w2.s.reconciliationInfo, running := w2.s.running,
                         tasks := w2.s.tasks)
  {
    hide Parse, String, NameIndex;
    assert Ids(w.nodes, {a}) == {String(w.nodes[a])};
  }

  lemma OneIsBlind(w: World, w4: World, o: Offer, a: string)
    requires Complete(w, o) && a in w.alive && w.s.desired > 1
    requires w4.s.mutable && !w4.s.reseeding && w4.pc.Idle? && w4.s.pending == {} && w4.s.running.Keys == {a}
    requires a in w.nodes && w4.s.running[a].slave == w.nodes[a].slave && w4.cache == map[] && w4.received == {}
    requires w4.nodes == w.nodes && w4.alive == w.alive && w4.sync.Synced?
    requires w4.s.desired == w.s.desired && w4.s.single == w.s.single && w4.s.highest == w.s.highest
    ensures Blind(w4, o)
  {
    SameName(w.s, w4.s, o);
    hide NewNode, Legible;
    assert |w4.s.running| == |w4.s.running.Keys| == 1;
  }

  /** Two registrations, of which the first has read the empty store and gets no further. */
  lemma ReadsEarly(w: World) returns (w': World)
    requires Fresh(w) && w.alive == {} && w.store == map[]
    ensures Reaches(w, w', OutOfDate)
    ensures w' == w.(s := w.s.(mutable := true), sync := Synced, stale := [Unregistered, Fetched(map[])])
  {
    hide Reaches, FairBut, Covers;
    Nobody(w);
    var w1 := Enlist(w, OutOfDate);
    SameCovers(w, w1, map[]);
    FetchFair(w1, OutOfDate);
    var w2 := w1.(sync := Fetched(map[]));
    Move(w, w1, Fetch, w2, OutOfDate);
    NotMutableFair(w2, OutOfDate);
    var w3 := w.(sync := Loading, stale := [Unregistered, Fetched(map[])]);
    Move(w, w2, Register, w3, OutOfDate);
    SameCovers(w, w3, map[]);
    ReadIn(w, w3, OutOfDate);
    var w4 := w3.(s := w3.s.(reconciliationInfo := map[]), sync := Waiting(w.store.Keys));
    Open(w, w4, OutOfDate);
    w' := Opened(w4);
  }

  lemma Nobody(w: World)
    requires w.alive == {}
    ensures Covers(w, map[])
  {
  }

  /** The new instance has been entered and written down. */
  ghost predicate Grown(w: World, o: Offer, w': World) {
    var n := NewNode(w.s, o);
    && w'.s.desired == w.s.desired && w'.s.single == w.s.single && !w'.s.reseeding && w'.s.highest == w.s.highest + 1
    && w'.s.pending == {} && w'.pc.Idle? && w'.cache == map[] && w'.received == {o.id}
    && w'.alive == {n.name} && n.name in w'.nodes && w'.nodes[n.name] == n && w'.store.Keys == {String(n)}
    && w'.stale == [Unregistered, Fetched(map[])] && w'.sync.Synced? && LegibleAs(w'.nodes, n.name)
  }

  lemma NewIsLegible(s: Sched, o: Offer)
    requires Plain(o.host) && PortsFit(NewNode(s, o)) && 0 <= s.highest < MAX_INT - 1
    ensures var n := NewNode(s, o); Carries(String(n), n.name) && NameIndex(n.name) == Some(s.highest + 1)
  {
    NameIsPlain(s.highest + 1);
    RoundTripExactly(NewNode(s, o));
    NameIndexOf(s.highest + 1);
    hide String, Plain, Parse, NameIndex, NameOf;
  }

  lemma GrownIs(w: World, o: Offer, w1: World)
    requires LaunchedBy(w, o, w1) && Plain(o.host) && PortsFit(NewNode(w.s, o)) && 0 <= w.s.highest < MAX_INT - 1
    requires w.alive == {} && w.cache == map[] && w.received == {} && !w.s.reseeding && w.s.pending == {}
    requires w.s.reconciliationInfo == map[] && w.sync.Synced? && w.stale == [Unregistered, Fetched(map[])]
    ensures var n := NewNode(w.s, o);
            && n.name in w1.nodes && Grown(w, o, AfterRunning(w1, n.name))
            && FairBut(w1, Status(String(w1.nodes[n.name]), w1.nodes[n.name].slave, Running, true), OutOfDate)
  {
    hide String, Plain, Parse, NameIndex, NameOf, PortsFit, NewNode;
    NewIsLegible(w.s, o);
  }

  lemma Grows(w0: World, w: World, o: Offer) returns (w': World)
    requires Reaches(w0, w, OutOfDate) && w.s.desired > 0 && o.fits && Plain(o.host) && PortsFit(NewNode(w.s, o))
    requires w.alive == {} && w.cache == map[] && w.received == {} && w.pc.Idle? && w.s.mutable && !w.s.reseeding
    requires w.s.running == map[] && w.s.pending == {} && w.s.reconciliationInfo == map[] && 0 <= w.s.highest < MAX_INT - 1
    requires w.sync.Synced? && w.stale == [Unregistered, Fetched(map[])]
    ensures Reaches(w0, w', OutOfDate) && Grown(w, o, w')
  {
    assert |w.s.running| == 0;
    assert Poised(w, o);
    hide Reaches, NewNode, String, Plain, Poised, LaunchedBy, Grown, FairBut;
    var w1 := LaunchOne(w0, w, o, OutOfDate);
    var n := NewNode(w.s, o);
    GrownIs(w, o, w1);
    RunningStep(w0, w1, n.name, OutOfDate);
    w' := AfterRunning(w1, n.name);
  }

  lemma OutOfDateFair(w: World, i: nat)
    ensures FairBut(w, StaleLoad(i), OutOfDate)
  {
  }

  /** The scheduler registers again and reads a complete store. */
  lemma ReadsAgain(w0: World, w: World, o: Offer, v: World) returns (w': World)
    requires Reaches(w0, w, OutOfDate) && Grown(v, o, w)
    ensures Reaches(w0, w', OutOfDate) && w'.sync.Waiting? && |w'.stale| == 3 && w'.stale[1] == Fetched(map[])
    ensures w' == w.(s := w'.s, sync := w'.sync, stale := w'.stale)
    ensures w'.s == Initialized(w.s).(mutable := false, reconciliationInfo := w.store)
  {
    GrownCovers(v, o, w);
    hide Reaches, FairBut, Covers, NewNode, String, LegibleAs;
    var w1 := w.(s := w.s.(mutable := false));
    Move(w0, w, Disconnect, w1, OutOfDate);
    NotMutableFair(w1, OutOfDate);
    var w2 := After(w1, Register);
    Move(w0, w1, Register, w2, OutOfDate);
    ReadIn(w0, w2, OutOfDate);
    w' := w2.(s := w2.s.(reconciliationInfo := w2.store), sync := Waiting(w2.store.Keys));
  }

  /** But the first attempt puts in place what it read long ago. */
  lemma Forgets(w0: World, w: World) returns (w': World)
    requires Reaches(w0, w, OutOfDate) && w.sync.Waiting? && |w.stale| == 3 && w.stale[1] == Fetched(map[])
    ensures Reaches(w0, w', OutOfDate) && w'.sync.Synced? && w' == w.(s := w'.s, sync := w'.sync, stale := w'.stale)
    ensures w'.s == w.s.(mutable := true, reconciliationInfo := map[])
  {
    hide Reaches, FairBut;
    OutOfDateFair(w, 1);
    var w1 := After(w, StaleLoad(1));
    Move(w0, w, StaleLoad(1), w1, OutOfDate);
    Open(w0, w1, OutOfDate);
    w' := Opened(w1);
  }

  lemma GrownCovers(v: World, o: Offer, w: World)
    requires Grown(v, o, w)
    ensures Covers(After(w.(s := w.s.(mutable := false)), Register), w.store)
  {
    hide String, LegibleAs;
    assert String(NewNode(v.s, o)) in w.store.Keys;
  }

  /** The attempt of an earlier registration replaces what the last one waits for by what it
      read before the only instance was launched: there will be two. */
  lemma OutdatedOverruns(w: World, o1: Offer, o2: Offer) returns (w': World)
    requires Fresh(w) && w.alive == {} && w.store == map[] && w.s.desired == 1 && w.s.highest < MAX_INT - 1
    requires o1.fits && o2.fits && o1.id != o2.id && Plain(o1.host) && PortsFit(NewNode(w.s, o1))
    ensures Reaches(w, w', OutOfDate) && Exceeds(w')
  {
    hide Reaches, NewNode, String, Plain, Exceeds;
    var w1 := ReadsEarly(w);
    SameName(w.s, w1.s, o1);
    var w2 := Grows(w, w1, o1);
    var w3 := ReadsAgain(w, w2, o1, w1);
    var w4 := Forgets(w, w3);
    OneLives(w1, o1, w2, w4, o2);
    w' := BlindLaunch(w, w4, o2, OutOfDate);
  }

  lemma OneLives(v: World, o: Offer, w: World, w': World, o2: Offer)
    requires Grown(v, o, w) && o2.fits && o2.id != o.id && 0 <= v.s.highest < MAX_INT - 1 && v.s.desired == 1
    requires w'.s.mutable && w'.s.running == map[] && w'.sync.Synced?
    requires !w'.s.reseeding && w'.pc.Idle? && w'.s.pending == {} && w'.cache == map[] && w'.received == {o.id}
    requires w'.nodes == w.nodes && w'.alive == w.alive && w'.s.desired == w.s.desired && w'.s.highest == w.s.highest
    ensures Blind(w', o2) && w'.s.highest < MAX_INT
  {
    NextIsOther(v.s, o, w'.s, o2);
    assert Legible(w'.nodes, w'.alive);
    hide LegibleAs, Legible, NewNode, String;
    BlindIs(w', o2);
  }

  lemma NextIsOther(s: Sched, o: Offer, s': Sched, o': Offer)
    requires 0 <= s.highest < MAX_INT - 1 && s'.highest == s.highest + 1
    ensures NewNode(s', o').name != NewNode(s, o).name
  {
    NamesDiffer(s.highest + 1, s.highest + 2);
    hide NameOf;
  }

  // ---------------------------------------------------------------- two instances on one slave

  /** The launcher has found its offer good while the scheduler knew of no instance. */
  ghost predicate Paused(w: World, w': World, o: Offer) {
    && w'.pc == Held(o) && w'.sync == Loading && w'.nodes == w.nodes && w'.alive == w.alive
    && !w'.s.mutable && !w'.s.reseeding && w'.s.pending == {} && w'.s.running == map[] && w'.s.heardFrom == {}
    && w'.s.desired == w.s.desired && w'.s.highest == w.s.highest
  }

  /** It set out before the registration that made the scheduler forget. */
  lemma SetsOutEarly(w0: World, w: World, o: Offer) returns (w': World)
    requires Reaches(w0, w, Misjudges) && CanLaunch(w.s) && w.pc.Idle? && o.id !in w.received && w.cache == map[]
    ensures Reaches(w0, w', Misjudges) && w'.sync == Loading && w'.nodes == w.nodes && w'.alive == w.alive && w'.store == w.store
    ensures w'.s == Initialized(w.s).(mutable := false) && w'.cache == map[]
    ensures w'.pc == Checked && o.id in w'.arriving && w'.arriving[o.id] == Arrival(o, StateOK)
  {
    hide Reaches, Arrived;
    var w1 := ChecksEarly(w0, w, o);
    var w2 := After(w1, Disconnect);
    Move(w0, w1, Disconnect, w2, Misjudges);
    w' := After(w2, Register);
    Move(w0, w2, Register, w', Misjudges);
  }

  lemma ChecksEarly(w0: World, w: World, o: Offer) returns (w': World)
    requires Reaches(w0, w, Misjudges) && CanLaunch(w.s) && w.pc.Idle? && o.id !in w.received && w.cache == map[]
    ensures Reaches(w0, w', Misjudges) && w'.nodes == w.nodes && w'.alive == w.alive && w'.store == w.store && w'.s == w.s && w'.cache == map[]
    ensures w'.pc == Checked && o.id in w'.arriving && w'.arriving[o.id] == Arrival(o, StateOK)
  {
    hide Reaches;
    var w1 := After(w, Arrive(o));
    Move(w0, w, Arrive(o), w1, Misjudges);
    var w2 := After(w1, CheckState(o.id));
    Move(w0, w1, CheckState(o.id), w2, Misjudges);
    w' := After(w2, Check(true));
    Move(w0, w2, Check(true), w', Misjudges);
  }

  lemma NothingUsed(s: Sched, slave: string)
    requires s.running == map[]
    ensures !UsesSlave(s, slave)
  {
  }

  /** The offer passes both looks at its slave, since nothing is known to run. */
  lemma SlaveLooksFree(w0: World, w: World, o: Offer) returns (w': World)
    requires Reaches(w0, w, Misjudges) && w.pc == Checked && w.s.running == map[] && w.cache == map[] && w.s.desired > 0 && o.fits
    requires o.id in w.arriving && w.arriving[o.id] == Arrival(o, StateOK)
    ensures Reaches(w0, w', Misjudges) && w'.pc == Held(o)
    ensures w'.s == w.s && w'.sync == w.sync && w'.nodes == w.nodes && w'.alive == w.alive && w'.store == w.store
  {
    hide Reaches, UsesSlave;
    NothingUsed(w.s, o.slave);
    var w2 := IsCached(w0, w, o);
    var w3 := After(w2, SchedulerSpec.Pop(o.id));
    Move(w0, w2, SchedulerSpec.Pop(o.id), w3, Misjudges);
    w' := After(w3, Validate);
    Move(w0, w3, Validate, w', Misjudges);
  }

  lemma IsCached(w0: World, w: World, o: Offer) returns (w': World)
    requires Reaches(w0, w, Misjudges) && !UsesSlave(w.s, o.slave) && w.cache == map[] && w.s.desired > 0 && o.fits
    requires o.id in w.arriving && w.arriving[o.id] == Arrival(o, StateOK)
    ensures Reaches(w0, w', Misjudges) && w'.cache == map[o.id := o] && w'.pc == w.pc
    ensures w'.s == w.s && w'.sync == w.sync && w'.nodes == w.nodes && w'.alive == w.alive && w'.store == w.store
  {
    hide Reaches, UsesSlave;
    var w1 := After(w, CheckSlave(o.id));
    Move(w0, w, CheckSlave(o.id), w1, Misjudges);
    w' := After(w1, SchedulerSpec.Push(o.id));
    Move(w0, w1, SchedulerSpec.Push(o.id), w', Misjudges);
  }

  /** The launcher goes on once the scheduler is synchronised and knows better. */
  lemma GoesOn(w0: World, w: World, o: Offer) returns (w': World)
    requires Reaches(w0, w, Misjudges) && Paused(w0, w, o) && Below(w, w.alive) && Kept(w)
    requires |w.alive| < w.s.desired
    ensures Reaches(w0, w', Misjudges) && w'.pc == Cleared(o)
    ensures w'.nodes == w.nodes && w'.alive == w.alive && w'.s.running.Keys == w.alive && w'.s.highest == w.s.highest
  {
    hide Reaches, Below, Ids, Covers;
    KeptCovers(w);
    ReadIn(w0, w, Misjudges);
    var w1 := w.(s := w.s.(reconciliationInfo := w.store), sync := Waiting(w.store.Keys));
    BelowStill(w, w1, w.alive, w.alive);
    var w3 := HearAll(w0, w1, Misjudges);
    LastCheck(w3, o);
    w' := After(w3, Recheck(true));
    Move(w0, w3, Recheck(true), w', Misjudges);
  }

  lemma LastCheck(w: World, o: Offer)
    requires w.pc == Held(o) && w.s.mutable && !w.s.reseeding && w.s.pending == {} && |w.s.running.Keys| < w.s.desired
    ensures Enabled(w, Recheck(true)) && After(w, Recheck(true)) == w.(pc := Cleared(o))
  {
    assert |w.s.running| == |w.s.running.Keys|;
  }

  /** A launcher that looks at the slave of its offer while the scheduler has forgotten its
      instances puts a second one there, in single-instance mode and with nothing else at fault. */
  lemma MisjudgedShares(w: World, a: string, o: Offer) returns (w': World, n: string)
    requires Fresh(w) && Inheritable(w) && w.s.single && w.s.desired > 1 && w.s.highest < MAX_INT
    requires w.alive == {a} && Below(w, w.alive) && w.nodes[a].slave == o.slave && o.fits && Kept(w)
    ensures Reaches(w, w', Misjudges)
    ensures n != a && {a, n} <= w'.alive && w'.alive <= w'.nodes.Keys && w'.nodes[a].slave == w'.nodes[n].slave
  {
    hide Reaches, Below, NewNode, NameOf, Ids;
    var w1 := Settled(w, Misjudges);
    var w2 := SetsOutEarly(w, w1, o);
    var w3 := SlaveLooksFree(w, w2, o);
    BelowStill(w, w3, w.alive, w.alive);
    BelowIn(w, w.alive, a);
    var w4 := GoesOn(w, w3, o);
    n := NewNode(w4.s, o).name;
    NewIsAbove(w, a, w4, o);
    Depart(w, w4, o, Misjudges);
    w' := Away(w4, o);
  }

  lemma NewIsAbove(w: World, a: string, w': World, o: Offer)
    requires BelowAs(w, a) && 0 <= w.s.highest < MAX_INT && w'.s.highest == w.s.highest
    ensures NewNode(w'.s, o).name != a && NewNode(w'.s, o).slave == o.slave
  {
    NameIndexOf(w.s.highest + 1);
    hide NameIndex, NameOf, LegibleAs;
  }

  // ---------------------------------------------------------------- names that come back

  /** One instance runs, named with the last number, and nothing is going on. */
  ghost predicate Steady(w: World, m: Node) {
    && !w.s.reseeding && w.pc.Idle? && w.s.pending == {} && w.cache == map[]
    && w.s.desired > 1 && w.s.running.Keys == {m.name} && w.s.running[m.name].slave == m.slave
    && m.name in w.nodes && w.nodes[m.name] == m && m.name in w.alive && w.s.highest == -MAX_INT - 1
  }

  ghost predicate LastNode(m: Node) {
    Carries(String(m), m.name) && NameIndex(m.name) == Some(MAX_INT)
  }

  lemma SteadyPoised(w: World, m: Node, o: Offer)
    requires Steady(w, m) && w.s.mutable && o.fits && o.slave != m.slave && o.id !in w.received
    ensures Poised(w, o)
  {
    assert |w.s.running| == |w.s.running.Keys| == 1;
  }

  /** Reaching the point of a launch from there. */
  lemma SteadyLaunch(w0: World, w: World, m: Node, o: Offer) returns (w': World)
    requires Reaches(w0, w, RunsOver) && Steady(w, m) && w.s.mutable && w.sync.Synced?
    requires o.fits && o.slave != m.slave && o.id !in w.received
    ensures Reaches(w0, w', RunsOver) && w'.pc == Cleared(o) && w' == w.(pc := w'.pc, received := w.received + {o.id}, timers := w'.timers, arriving := w'.arriving)
  {
    SteadyPoised(w, m, o);
    hide Reaches, UsesSlave;
    StockUp(w0, w, o, RunsOver);
    var w1 := Stocked(w, o);
    SetOut(w0, w1, o, RunsOver);
    w' := Bare(w1, o).(pc := Cleared(o));
  }

  /** The same before its report, or after another launch. */
  ghost predicate Resting(w: World, m: Node) {
    && !w.s.reseeding && w.pc.Idle? && w.s.pending == {} && w.cache == map[]
    && w.s.desired > 1 && w.s.running.Keys <= {m.name} && (m.name in w.s.running ==> w.s.running[m.name].slave == m.slave)
    && m.name in w.nodes && w.nodes[m.name] == m && m.name in w.alive && w.s.highest < MAX_INT
  }

  lemma ReportSteadies(w: World, m: Node)
    requires LastNode(m) && Resting(w, m)
    ensures var w' := AfterRunning(w, m.name);
            && Steady(w', m) && w'.received == w.received && w'.sync == w.sync && w'.s.mutable == w.s.mutable
            && w'.s.heardFrom == w.s.heardFrom + {String(m)}
            && w'.s.reconciliationInfo.Keys == w.s.reconciliationInfo.Keys + {String(m)}
    ensures FairBut(w, Status(String(m), m.slave, Running, true), RunsOver)
  {
    hide Parse, String, NameIndex;
  }

  lemma Steadies(w0: World, w: World, m: Node) returns (w': World)
    requires Reaches(w0, w, RunsOver) && LastNode(m) && Resting(w, m)
    ensures Reaches(w0, w', RunsOver) && Steady(w', m) && w'.received == w.received && w'.sync == w.sync && w'.s.mutable == w.s.mutable
    ensures w'.s.heardFrom == w.s.heardFrom + {String(m)}
    ensures w'.s.reconciliationInfo.Keys == w.s.reconciliationInfo.Keys + {String(m)}
  {
    hide Reaches, Steady, LastNode, FairBut, String;
    ReportSteadies(w, m);
    RunningStep(w0, w, m.name, RunsOver);
    w' := AfterRunning(w, m.name);
  }

  function Over(w: World, n: Node): World {
    Reported(w, String(n), n.slave, Terminal, true)
  }

  lemma NewIsOther(w: World, m: Node, o: Offer)
    requires w.s.highest == -MAX_INT - 1 && LastNode(m) && Plain(o.host) && PortsFit(NewNode(w.s, o))
    ensures NewNode(w.s, o).name != m.name && Carries(String(NewNode(w.s, o)), NewNode(w.s, o).name)
  {
    NameIsPlain(-MAX_INT);
    RoundTripExactly(NewNode(w.s, o));
    NegativeHasNoIndex(-MAX_INT);
    hide String, Parse, NameIndex, NameOf, Plain;
  }

  /** A launch that ends at once leaves everything as before but for the counter. */
  lemma EndsAtOnce(w: World, m: Node, o: Offer)
    requires Steady(w.(pc := Idle), m) && w.pc == Cleared(o) && w.s.mutable && w.sync.Synced?
    requires NewNode(w.s, o).name != m.name && Carries(String(NewNode(w.s, o)), NewNode(w.s, o).name)
    ensures var n := NewNode(w.s, o); var c := Over(Away(w, o), n);
            && Resting(c, m) && c.received == w.received && c.s.mutable && c.sync.Synced?
            && FairBut(Away(w, o), Status(String(n), n.slave, Terminal, true), RunsOver)
  {
    hide String, Parse, NameOf;
  }

  lemma LaunchAndEnd(w: World, m: Node, o: Offer) returns (w': World)
    requires Enabled(w, Commit(true)) && w.pc == Cleared(o) && Steady(w.(pc := Idle), m) && w.s.mutable && w.sync.Synced?
    requires NewNode(w.s, o).name != m.name && Carries(String(NewNode(w.s, o)), NewNode(w.s, o).name)
    ensures Reaches(After(w, Commit(true)), w', RunsOver) && Resting(w', m) && w'.received == w.received
    ensures w'.s.mutable && w'.sync.Synced?
  {
    hide Reaches, NewNode, String, Carries, Steady, Resting, Away, Reported, FairBut;
    AwaySteps(w, o);
    EndsAtOnce(w, m, o);
    var a, b, n := After(w, Commit(true)), Away(w, o), NewNode(w.s, o);
    Stand(a, RunsOver);
    Move(a, a, Launch, b, RunsOver);
    Go(a, b, Status(String(n), n.slave, Terminal, true), RunsOver);
    w' := Over(b, n);
  }

  /** A new scheduler that finds this one instance is soon ready. */
  lemma SoonReady(w: World, m: Node) returns (w': World)
    requires Fresh(w) && w.s.desired > 1 && w.s.highest < MAX_INT && LastNode(m)
    requires m.name in w.nodes && w.nodes[m.name] == m && w.alive == {m.name} && w.store.Keys == {String(m)}
    ensures Reaches(w, w', RunsOver) && Steady(w', m) && w'.received == {} && w'.s.mutable && w'.sync.Synced?
  {
    hide Reaches, LastNode, String;
    assert Covers(w, w.store);
    Enrol(w, RunsOver);
    var w1 := Steadies(w, Loaded(w), m);
    Open(w, w1, RunsOver);
    w' := Opened(w1);
  }

  /** Past the last number the promise fails: a task that reports it twice, with a launch
      after each report, makes both launches use the same name. */
  lemma OverflowRepeatsNames(w: World, m: Node, o1: Offer, o2: Offer) returns (w1: World, w2: World)
    requires Fresh(w) && w.s.desired > 1 && w.s.highest < MAX_INT
    requires LastNode(m) && m.name in w.nodes && w.nodes[m.name] == m && w.alive == {m.name} && w.store.Keys == {String(m)}
    requires o1.fits && o2.fits && o1.slave != m.slave && o2.slave != m.slave && o1.id != o2.id
    requires Plain(o1.host) && PortsFit(NewNode(w.s, o1))
    ensures Reaches(w, w1, RunsOver) && w1.pc == Cleared(o1)
    ensures Reaches(After(w1, Commit(true)), w2, RunsOver) && w2.pc == Cleared(o2)
    ensures NewNode(w1.s, o1).name == NewNode(w2.s, o2).name
  {
    hide Reaches, LastNode, String, NameOf, Plain, Resting, After, Carries;
    var v := SoonReady(w, m);
    w1 := SteadyLaunch(w, v, m, o1);
    NewIsOther(w1, m, o1);
    var c := LaunchAndEnd(w1, m, o1);
    c := Steadies(After(w1, Commit(true)), c, m);
    w2 := SteadyLaunch(After(w1, Commit(true)), c, m, o2);
  }
}
