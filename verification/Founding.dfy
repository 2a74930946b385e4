/** What a launched instance is told: where it is, and whether it is to found a new cluster or to
    join the one that exists. */
module Founding {
  import opened Types
  import opened Text
  import opened Config
  import opened OfferCaches
  import opened SchedulerSpec
  import opened SchedulerSafety
  import opened LaunchBounds
  import opened Tenures
  import opened Records
  import opened Overruns

  // ---------------------------------------------------------------- in every run

  /** A launch uses the offer that the launcher holds: the instance has its host and slave and
      three ports from its first on, and is told to found a cluster if and only if no instance
      is known to run. */
  ghost predicate ToldBy(w: World, o: Offer, n: Node) {
    && n.host == o.host && n.slave == o.slave
    && n.rpcPort == o.port && n.clientPort == o.port + 1 && n.reseedPort == o.port + 2
    && (n.kind == "new" <==> w.s.running == map[]) && (n.kind == "existing" <==> w.s.running != map[])
  }

  lemma LaunchTells(u: Run, k: nat)
    requires IsRun(u) && k < |u.events| && u.events[k] == Commit(true)
    ensures var w, w' := u.states[k], u.states[k + 1];
            && w.pc.Cleared? && w'.pc.Launching? && w'.pc.o == w.pc.o && ToldBy(w, w.pc.o, w'.pc.n)
            && w'.pc.n.name in w'.nodes && w'.nodes[w'.pc.n.name] == w'.pc.n && w'.s.pending == w.s.pending + {w'.pc.n.name}
  {
    assert StepAt(u, k);
    hide NameOf;
  }

  // ---------------------------------------------------------------- known to run is alive

  ghost predicate KnownLive(w: World) {
    w.s.running.Keys <= w.alive
  }

  lemma KnownLiveStep(w: World, e: Event)
    requires Enabled(w, e) && Truthful(w, e) && KnownLive(w)
    ensures KnownLive(After(w, e))
  {
    hide AfterLaunch, Reported;
    if e.Status? {
      KnownLiveReport(w, e);
    } else if IsOfferEvent(e) {
      OfferEventKeeps(w, e);
    } else if IsLaunchEvent(e) {
      LaunchEventKeeps(w, e);
      LaunchAlive(w, e);
    }
  }

  lemma LaunchAlive(w: World, e: Event)
    requires Enabled(w, e) && IsLaunchEvent(e)
    ensures w.alive <= AfterLaunch(w, e).alive
  {
    if e.Launch? {
      LaunchCrew(w);
      assert CrewOf(AfterLaunch(w, e)).alive == w.alive + {w.pc.n.name};
    } else {
      LaunchEventKeeps(w, e);
    }
    hide AfterLaunch;
  }

  lemma KnownLiveReport(w: World, e: Event)
    requires e.Status? && Truthful(w, e) && KnownLive(w)
    ensures KnownLive(Reported(w, e.taskId, e.slave, e.report, e.saved))
  {
    hide Parse, Reported;
    StatusCrew(w, e.taskId, e.slave, e.report, e.saved);
    var c := CrewOf(Reported(w, e.taskId, e.slave, e.report, e.saved));
    assert c.running.Keys <= c.alive;
  }

  lemma {:induction false} AlwaysKnownLive(u: Run, k: nat)
    requires IsTenure(u) && k < |u.states|
    ensures KnownLive(u.states[k])
  {
    if k > 0 {
      hide KnownLive, Inheritable, Fresh, Truthful, After, Enabled, Overflows, Unmentioned, Outdated, Premature, Misjudged;
      AlwaysKnownLive(u, k - 1);
      assert StepAt(u, k - 1) && FairAt(u, k - 1);
      KnownLiveStep(u.states[k - 1], u.events[k - 1]);
    }
  }

  // ---------------------------------------------------------------- founders

  lemma SessionUnderway(w: World)
    requires Tenure(w) && w.sync.Synced? && w.pc.Cleared?
    ensures w.s.pending == {} && w.alive <= w.s.running.Keys
  {
    hide Named, Numbered;
  }

  /** Over a whole life without faults, an instance is rightly told, which is to found a cluster
      if and only if no instance lives, exactly if the scheduler is synchronised, or no instance
      lives, or it knows of one: it is misled only by having forgotten all that live. */
  lemma FoundsExactly(u: Run, k: nat)
    requires IsTenure(u) && k < |u.events| && u.events[k] == Commit(true)
    ensures u.states[k + 1].pc.Launching?
    ensures var w := u.states[k];
            (u.states[k + 1].pc.n.kind == "new" <==> w.alive == {}) <==> w.sync.Synced? || w.alive == {} || w.s.running != map[]
  {
    LaunchTells(u, k);
    TenureHolds(u, k);
    AlwaysKnownLive(u, k);
    hide IsTenure, Tenure;
    if u.states[k].sync.Synced? {
      SessionUnderway(u.states[k]);
    }
  }

  /** The instances that live or are being launched and were told to found a cluster. */
  ghost function Founders(w: World): set<string> {
    set a | a in w.alive + w.s.pending && a in w.nodes && w.nodes[a].kind == "new"
  }

  /** No launch is committed while the scheduler has forgotten all the instances that live. */
  ghost predicate Informed(u: Run) {
    |u.states| == |u.events| + 1 && forall k {:trigger InformedAt(u, k)} | 0 <= k < |u.events| :: InformedAt(u, k)
  }

  ghost predicate InformedAt(u: Run, k: nat)
    requires k < |u.events| && k < |u.states|
  {
    var w := u.states[k];
    u.events[k] == Commit(true) ==> w.sync.Synced? || w.alive == {} || w.s.running != map[]
  }

  lemma ReportFounders(w: World, e: Event)
    requires e.Status? && Truthful(w, e)
    ensures Founders(Reported(w, e.taskId, e.slave, e.report, e.saved)) <= Founders(w)
  {
    hide Parse, Raised;
  }

  lemma LaunchFounders(w: World, e: Event)
    requires Enabled(w, e) && IsLaunchEvent(e) && e != Commit(true) && (e.Launch? ==> w.pc.n.name in w.s.pending)
    ensures Founders(AfterLaunch(w, e)) <= Founders(w)
  {
    hide UsesSlave, CanLaunch, NewNode;
  }

  lemma QuietFounders(w: World, e: Event)
    requires Enabled(w, e) && !e.Status? && !IsLaunchEvent(e)
    ensures Founders(After(w, e)) <= Founders(w)
  {
    hide AfterLaunch, Reported;
    if IsOfferEvent(e) {
      OfferEventKeeps(w, e);
    }
  }

  lemma CommitFounders(w: World)
    requires Enabled(w, Commit(true)) && w.s.pending == {} && NewNode(w.s, w.pc.o).name !in w.alive
    requires NewNode(w.s, w.pc.o).kind == "new" ==> w.alive == {}
    ensures var w' := AfterLaunch(w, Commit(true));
            Founders(w') <= Founders(w) || Founders(w') == {NewNode(w.s, w.pc.o).name}
  {
    hide NewNode;
  }

  lemma FewerFounders(a: set<string>, b: set<string>)
    requires a <= b
    ensures |a| <= |b|
  {
    SubsetCount(a, b);
  }

  /** One event: what it does to the founders, given what is known where it happens. */
  lemma EventFounders(w: World, e: Event)
    requires Enabled(w, e) && Truthful(w, e) && |Founders(w)| <= 1 && (w.pc.Launching? ==> w.pc.n.name in w.s.pending)
    requires e == Commit(true) ==>
               && w.s.pending == {} && NewNode(w.s, w.pc.o).name !in w.alive && (NewNode(w.s, w.pc.o).kind == "new" ==> w.alive == {})
    ensures |Founders(After(w, e))| <= 1
  {
    hide Founders, NewNode, Truthful, AfterLaunch, Reported;
    if e == Commit(true) {
      CommitFounders(w);
    } else if e.Status? {
      ReportFounders(w, e);
    } else if IsLaunchEvent(e) {
      LaunchFounders(w, e);
    } else {
      QuietFounders(w, e);
    }
    if Founders(After(w, e)) <= Founders(w) {
      FewerFounders(Founders(After(w, e)), Founders(w));
    }
  }

  lemma CommitKnown(u: Run, k: nat)
    requires IsTenure(u) && k < |u.events| && u.events[k] == Commit(true) && InformedAt(u, k)
    ensures var w := u.states[k];
            && w.pc.Cleared? && w.s.pending == {} && NewNode(w.s, w.pc.o).name !in w.alive
            && (NewNode(w.s, w.pc.o).kind == "new" ==> w.alive == {})
  {
    var w := u.states[k];
    assert StepAt(u, k) && FairAt(u, k);
    assert w.s.highest != MAX_INT;
    FoundsExactly(u, k);
    NewIsTold(w);
    TenureHolds(u, k);
    hide IsTenure, Tenure, NewNode;
    TenureLauncher(w);
    RunKeepsBasics(u, k);
  }

  lemma FoundersStep(u: Run, k: nat)
    requires IsTenure(u) && Informed(u) && k < |u.events| && |Founders(u.states[k])| <= 1
    ensures |Founders(u.states[k + 1])| <= 1
  {
    assert StepAt(u, k) && FairAt(u, k) && InformedAt(u, k);
    if u.events[k] == Commit(true) {
      CommitKnown(u, k);
    }
    TenureHolds(u, k);
    hide IsTenure, Tenure, Founders, NewNode, Enabled, After, Truthful;
    TenureLauncher(u.states[k]);
    EventFounders(u.states[k], u.events[k]);
  }

  lemma NewIsTold(w: World)
    requires w.pc.Cleared?
    ensures AfterLaunch(w, Commit(true)).pc == Launching(w.pc.o, NewNode(w.s, w.pc.o))
  {
    hide NewNode;
  }

  /** At most one instance that lives or is being launched was ever told to found a cluster. */
  lemma {:induction false} OneFounder(u: Run, k: nat)
    requires IsTenure(u) && Informed(u) && k < |u.states| && |Founders(u.states[0])| <= 1
    ensures |Founders(u.states[k])| <= 1
  {
    if k > 0 {
      hide IsTenure, Informed, Founders;
      StatesAre(u);
      OneFounder(u, k - 1);
      FoundersStep(u, k - 1);
    }
  }

  lemma StatesAre(u: Run)
    requires IsTenure(u)
    ensures |u.states| == |u.events| + 1
  {
  }

  // ---------------------------------------------------------------- two clusters

  lemma SlavesKnown(w: World, a: string)
    requires Tenure(w) && w.sync.Synced? && a in w.s.running
    ensures a in w.nodes && w.s.running[a].slave == w.nodes[a].slave
  {
    assert a in Instances(CrewOf(w));
  }

  /** Without that condition it fails, although nothing is at fault: a launcher that has passed
      its last check when the scheduler registers again finds no instance known to run, and
      founds a second cluster beside the first. */
  lemma FoundsTwice(w: World, a: string, o: Offer) returns (w': World, b: string)
    requires Fresh(w) && Inheritable(w) && w.s.desired > 1 && w.alive == {a} && Below(w, w.alive) && Kept(w)
    requires o.fits && w.nodes[a].slave != o.slave && w.nodes[a].kind == "new" && w.s.highest < MAX_INT
    ensures Reaches(w, w', NoFault) && a != b && w'.alive == {a, b} && Founders(w') == {a, b}
  {
    hide Reaches, Below, Kept, UsesSlave, Tenure, NewNode, Founders;
    var w1 := Settled(w, NoFault);
    ReachesTenure(w, w1);
    SlavesKnown(w1, a);
    SettledPoised(w1, a, o);
    var w2 := PassesChecks(w, w1, o);
    var w3 := RegistersAgain(w, w2);
    ReachesTenure(w, w3);
    TenureLauncher(w3);
    Depart(w, w3, o, NoFault);
    w', b := Away(w3, o), NewNode(w3.s, o).name;
    SecondFounder(w3, a, o);
  }

  lemma SecondFounder(w: World, a: string, o: Offer)
    requires w.alive == {a} && w.s.pending == {} && w.s.running == map[] && a in w.nodes && w.nodes[a].kind == "new"
    requires NewNode(w.s, o).name != a
    ensures Away(w, o).alive == {a, NewNode(w.s, o).name} == Founders(Away(w, o))
  {
    hide NameOf;
  }

  lemma SettledPoised(w: World, a: string, o: Offer)
    requires w.s.mutable && !w.s.reseeding && w.pc.Idle? && w.s.pending == {} && w.cache == map[] && w.received == {}
    requires w.s.running.Keys == {a} && w.s.desired > 1 && o.fits && w.s.running[a].slave != o.slave
    ensures Poised(w, o)
  {
    assert |w.s.running| == |w.s.running.Keys| == 1;
  }

  /** The launcher takes an offer and passes its last check. */
  lemma PassesChecks(w0: World, w: World, o: Offer) returns (w': World)
    requires Reaches(w0, w, NoFault) && Poised(w, o) && w.sync.Synced?
    ensures Reaches(w0, w', NoFault) && w'.pc == Cleared(o) && w'.s == w.s && w'.alive == w.alive && w'.nodes == w.nodes
  {
    hide Reaches, UsesSlave, Accepts, CanLaunch;
    StockUp(w0, w, o, NoFault);
    var w1 := Stocked(w, o);
    SetOut(w0, w1, o, NoFault);
    w' := Bare(w1, o).(pc := Cleared(o));
  }

  lemma RegistersAgain(w0: World, w: World) returns (w': World)
    requires Reaches(w0, w, NoFault) && w.pc.Cleared?
    ensures Reaches(w0, w', NoFault) && w'.pc == w.pc && w'.alive == w.alive && w'.s.running == map[] && w'.nodes == w.nodes
    ensures w'.s.pending == w.s.pending && w'.s.highest == w.s.highest
  {
    hide Reaches, FairBut;
    var w1 := w.(s := w.s.(mutable := false));
    Move(w0, w, Disconnect, w1, NoFault);
    NotMutableFair(w1, NoFault);
    w' := After(w1, Register);
    Move(w0, w1, Register, w', NoFault);
  }
}
