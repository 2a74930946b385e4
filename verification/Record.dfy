/** The record of task ids that outlives a scheduler. The scheduler writes it itself, from what
    it has in mind, whenever an instance is reported running, and reads it back after a
    registration, which clears its mind. */
module Records {
  import opened Types
  import opened Text
  import opened Config
  import opened OfferCaches
  import opened SchedulerSpec
  import opened SchedulerSafety
  import opened LaunchBounds
  import opened Tenures

  /** All living instances are mentioned except one just launched. */
  ghost predicate StoreComplete(w: World, info: map<string, string>) {
    forall a | a in w.alive && a in w.nodes && a !in w.s.pending :: String(w.nodes[a]) in info
  }

  ghost predicate Safe(w: World) {
    StoreComplete(w, w.store)
  }

  predicate ReportsRunning(e: Event) {
    e.Status? && e.report.Running? && Parse(e.taskId).Some?
  }

  /** The scheduler writes down what it has in mind, and a living instance other than the one
      reported is not in it. */
  ghost predicate Overwrites(w: World, e: Event) {
    && ReportsRunning(e) && e.saved
    && exists b :: b in w.alive && b in w.nodes && (b !in w.s.pending || b == Parse(e.taskId).value.name)
                   && String(w.nodes[b]) !in w.s.reconciliationInfo && String(w.nodes[b]) != e.taskId
  }

  /** The first report of a launched instance could not be written down. */
  ghost predicate Unsaved(w: World, e: Event) {
    && ReportsRunning(e) && !e.saved
    && var name := Parse(e.taskId).value.name;
       name in w.s.pending && name in w.alive && name in w.nodes && String(w.nodes[name]) !in w.store
  }

  // ---------------------------------------------------------------- one step

  lemma ReportIs(w: World, e: Event)
    requires e.Status?
    ensures var w' := Reported(w, e.taskId, e.slave, e.report, e.saved);
            && w'.nodes == w.nodes
            && (!ReportsRunning(e) ==> w'.store == w.store && w'.alive <= w.alive
                                       && forall a | a in w'.alive && a !in w'.s.pending :: a !in w.s.pending)
            && (!ReportsRunning(e) ==> forall a | a in w'.alive && a !in w.s.pending :: a !in w'.s.pending)
            && (ReportsRunning(e) ==> w'.alive == w.alive && w'.s.pending == w.s.pending - {Parse(e.taskId).value.name}
                                      && w'.store == if e.saved then w.s.reconciliationInfo[e.taskId := e.slave] else w.store)
  {
    hide Parse, Raised;
  }

  lemma StatusRecord(w: World, e: Event)
    requires Safe(w) && e.Status? && Truthful(w, e)
    ensures Safe(Reported(w, e.taskId, e.slave, e.report, e.saved)) <==> !Overwrites(w, e) && !Unsaved(w, e)
  {
    ReportIs(w, e);
    hide Parse, String, Reported;
  }

  /** What the launcher needs: the name it is about to use is not in use, and the one it is
      handing over is pending. */
  lemma TenureLauncher(w: World)
    requires Tenure(w)
    ensures w.pc.Launching? ==> w.pc.n.name in w.s.pending
    ensures w.pc.Cleared? && w.s.highest != MAX_INT ==> NewNode(w.s, w.pc.o).name !in w.alive
  {
    if w.pc.Cleared? && w.s.highest != MAX_INT {
      NewNameIsFresh(w, w.pc.o);
    }
    hide NewNode, Named, Numbered;
  }

  lemma CommitRecord(w: World, ok: bool)
    requires Enabled(w, Commit(ok)) && Safe(w) && NewNode(w.s, w.pc.o).name !in w.alive
    ensures Safe(AfterLaunch(w, Commit(ok)))
  {
    hide NewNode, String;
    var w' := AfterLaunch(w, Commit(ok));
    forall a | a in w'.alive && a in w'.nodes && a !in w'.s.pending ensures String(w'.nodes[a]) in w'.store {
      assert a in w.alive && a in w.nodes && w'.nodes[a] == w.nodes[a] && a !in w.s.pending;
    }
  }

  lemma HandOverRecord(w: World)
    requires Enabled(w, Launch) && Safe(w) && w.pc.n.name in w.s.pending
    ensures Safe(AfterLaunch(w, Launch))
  {
    hide String;
  }

  lemma LaunchRecord(w: World, e: Event)
    requires Enabled(w, e) && IsLaunchEvent(e) && Tenure(w) && Safe(w) && !Overflows(w, e)
    ensures Safe(After(w, e))
  {
    TenureLauncher(w);
    hide Tenure, NewNode, AfterLaunch;
    if e.Commit? {
      hide Safe;
      CommitRecord(w, e.ok);
    } else if e.Launch? {
      hide Safe;
      HandOverRecord(w);
    } else {
      LaunchEventKeeps(w, e);
      hide String;
    }
  }

  lemma QuietRecord(w: World, e: Event)
    requires Enabled(w, e) && !e.Status? && !IsLaunchEvent(e)
    ensures Safe(After(w, e)) <==> Safe(w)
  {
    hide String, AfterLaunch;
    if IsOfferEvent(e) {
      OfferEventKeeps(w, e);
    }
  }

  /** The record stays complete exactly if the scheduler does not lose it in this event. */
  lemma RecordStepExactly(w: World, e: Event)
    requires Enabled(w, e) && Tenure(w) && Truthful(w, e) && !Overflows(w, e) && Safe(w)
    ensures Safe(After(w, e)) <==> !Overwrites(w, e) && !Unsaved(w, e)
  {
    hide Safe, Tenure, Truthful, Overflows, Overwrites, Unsaved, Reported, AfterLaunch;
    if e.Status? {
      StatusRecord(w, e);
    } else {
      OnlyReports(w, e);
      if IsLaunchEvent(e) {
        LaunchRecord(w, e);
      } else {
        QuietRecord(w, e);
      }
    }
  }

  lemma OnlyReports(w: World, e: Event)
    requires !e.Status?
    ensures !Overwrites(w, e) && !Unsaved(w, e)
  {
  }

  predicate LegibleIn(w: World, a: string) {
    a in w.alive && a in w.nodes && Carries(String(w.nodes[a]), a)
  }

  /** Right after a registration the scheduler has nothing in mind: the first report of a
      running instance loses the record exactly if another instance lives. */
  lemma FirstReportExactly(w: World, a: string)
    requires Named(w.nodes) && Safe(w) && w.s.reconciliationInfo == map[] && LegibleIn(w, a)
    ensures Safe(Reported(w, String(w.nodes[a]), w.nodes[a].slave, Running, true))
            <==> forall b | b in w.alive && b in w.nodes && b !in w.s.pending :: b == a
  {
    var e := Status(String(w.nodes[a]), w.nodes[a].slave, Running, true);
    hide Parse, String, Named, Reported;
    StatusRecord(w, e);
    forall b | b in w.alive && b in w.nodes ensures String(w.nodes[b]) == e.taskId <==> b == a {
      if String(w.nodes[b]) == e.taskId {
        IdNames(w, b);
      }
    }
  }

  // ---------------------------------------------------------------- whole lives

  /** Nothing goes wrong, and the scheduler does not lose its record. Nothing is said of what
      it reads from the store. */
  ghost predicate Careful(w: World, e: Event) {
    FairBut(w, e, Incomplete) && !Overwrites(w, e) && !Unsaved(w, e)
  }

  ghost predicate CarefulAt(u: Run, k: nat)
    requires k < |u.events| && k < |u.states|
  {
    Careful(u.states[k], u.events[k])
  }

  ghost predicate IsCareful(u: Run) {
    && IsRun(u) && Inheritable(u.states[0]) && Safe(u.states[0])
    && forall k {:trigger CarefulAt(u, k)} | 0 <= k < |u.events| :: CarefulAt(u, k)
  }

  lemma SafeIsMentioned(w: World, e: Event)
    requires Safe(w) && FairBut(w, e, Incomplete)
    ensures FairBut(w, e, NoFault)
  {
    hide Truthful, Overflows, Outdated, Premature, Misjudged, String;
    assert Covers(w, w.store);
  }

  lemma CarefulStep(u: Run, k: nat)
    requires IsCareful(u) && k < |u.events| && Tenure(u.states[k]) && Safe(u.states[k])
    ensures Tenure(u.states[k + 1]) && Safe(u.states[k + 1]) && FairAt(u, k)
  {
    assert StepAt(u, k) && CarefulAt(u, k);
    var w, e := u.states[k], u.events[k];
    SafeIsMentioned(w, e);
    hide Tenure, Safe, IsCareful, Enabled, After, Overwrites, Unsaved, Unmentioned, Outdated, Premature, Misjudged;
    TenureStep(w, e);
    RecordStepExactly(w, e);
  }

  lemma {:induction false} CarefulHolds(u: Run, k: nat)
    requires IsCareful(u) && k < |u.states|
    ensures Tenure(u.states[k]) && Safe(u.states[k])
  {
    hide Tenure, Safe, Inheritable, Fresh, StepAt, CarefulAt;
    if k == 0 {
      FreshTenure(u.states[0]);
    } else {
      CarefulHolds(u, k - 1);
      CarefulStep(u, k - 1);
    }
  }

  /** A scheduler that finds the record complete and does not lose it stays within bounds,
      with nothing assumed of what it reads back. */
  lemma CarefulIsTenure(u: Run)
    requires IsCareful(u)
    ensures IsTenure(u) && forall k | 0 <= k < |u.states| :: Safe(u.states[k])
  {
    hide Tenure, Safe, Inheritable, Fresh, StepAt, CarefulAt, FairAt;
    forall k | 0 <= k < |u.states| ensures Tenure(u.states[k]) && Safe(u.states[k]) {
      CarefulHolds(u, k);
    }
    forall k | 0 <= k < |u.events| ensures FairAt(u, k) {
      CarefulStep(u, k);
    }
  }
}
