/** What the scheduler has in mind, told from what has happened: its maps are read off the events
    of the run, without looking at how each event changes them. */
module Histories {
  import opened Types
  import opened Text
  import opened Config
  import opened OfferCaches
  import opened SchedulerSpec
  import opened SchedulerSafety

  // ---------------------------------------------------------------- what an event says

  /** A report with a task id that can be read, about the node of that name. */
  predicate Names(e: Event, name: string) {
    e.Status? && Parse(e.taskId).Some? && Parse(e.taskId).value.name == name
  }

  predicate SaysRunning(e: Event, name: string) {
    Names(e, name) && e.report.Running?
  }

  predicate SaysEnded(e: Event, name: string) {
    Names(e, name) && e.report.Terminal?
  }

  /** The event at j says something and none between j and k takes it back. */
  ghost predicate Since(u: Run, j: nat, k: nat, says: Event -> bool, undoes: Event -> bool) {
    j < k <= |u.events| && says(u.events[j]) && forall i | j < i < k :: !undoes(u.events[i])
  }

  /** Some event has said it and none since has taken it back. */
  ghost predicate Said(u: Run, k: nat, says: Event -> bool, undoes: Event -> bool) {
    exists j :: 0 <= j < k && Since(u, j, k, says, undoes)
  }

  /** One more event: it says it, or it was said before and is not taken back now. */
  lemma SaidStep(u: Run, k: nat, says: Event -> bool, undoes: Event -> bool)
    requires 0 < k <= |u.events|
    ensures Said(u, k, says, undoes) <==> says(u.events[k - 1]) || (Said(u, k - 1, says, undoes) && !undoes(u.events[k - 1]))
  {
    if says(u.events[k - 1]) {
      assert Since(u, k - 1, k, says, undoes);
    } else if Said(u, k - 1, says, undoes) && !undoes(u.events[k - 1]) {
      var j :| 0 <= j < k - 1 && Since(u, j, k - 1, says, undoes);
      assert Since(u, j, k, says, undoes);
    }
    if Said(u, k, says, undoes) && !says(u.events[k - 1]) {
      var j :| 0 <= j < k && Since(u, j, k, says, undoes);
      assert Since(u, j, k - 1, says, undoes);
    }
  }

  // ---------------------------------------------------------------- running nodes

  lemma ReportedSched(w: World, e: Event)
    requires e.Status?
    ensures Reported(w, e.taskId, e.slave, e.report, e.saved).s == OnStatus(w.s, e.taskId, e.slave, e.report)
  {
    hide OnStatus, Parse;
  }

  /** What a report does to the scheduler's maps. */
  lemma ReportMeans(s: Sched, e: Event, name: string, id: string)
    requires e.Status?
    ensures var s' := OnStatus(s, e.taskId, e.slave, e.report);
            && (name in s'.running <==> SaysRunning(e, name) || (name in s.running && !SaysEnded(e, name)))
            && (name in s'.pending <==> name in s.pending && !(SaysRunning(e, name) || SaysEnded(e, name)))
            && (id in s'.heardFrom <==> Hears(e, id) || id in s.heardFrom)
            && (RunningKnown(s) ==> (name in s'.tasks <==> SaysRunning(e, name) || (name in s.tasks && !SaysEnded(e, name))))
            && (s.mutable ==> (!s'.mutable <==> e.report.Terminal? && Parse(e.taskId).Some? && s'.running == map[]))
  {
    hide Parse, Raised, Carries;
  }

  lemma RunningStep(w: World, e: Event, name: string)
    requires Enabled(w, e)
    ensures name in After(w, e).s.running <==> SaysRunning(e, name) || (name in w.s.running && !(SaysEnded(e, name) || e.Register?))
  {
    hide AfterLaunch, Reported, OnStatus;
    if e.Status? {
      ReportedSched(w, e);
      ReportMeans(w.s, e, name, "");
    } else if IsOfferEvent(e) {
      OfferEventKeeps(w, e);
    } else if IsLaunchEvent(e) {
      LaunchEventKeeps(w, e);
    }
  }

  /** A node counts as running exactly if it has been reported running since the last
      registration and not reported ended since. */
  lemma {:induction false} RunningIsReported(u: Run, k: nat, name: string)
    requires IsRun(u) && k <= |u.events|
    ensures name in u.states[k].s.running
            <==> Said(u, k, e => SaysRunning(e, name), e => SaysEnded(e, name) || e.Register?)
  {
    if k > 0 {
      RunningIsReported(u, k - 1, name);
      assert StepAt(u, k - 1);
      hide SaysRunning, SaysEnded, After, Enabled, Said;
      RunningStep(u.states[k - 1], u.events[k - 1], name);
      SaidStep(u, k, e => SaysRunning(e, name), e => SaysEnded(e, name) || e.Register?);
    }
  }

  // ---------------------------------------------------------------- tasks

  lemma TasksStep(w: World, e: Event, name: string)
    requires Enabled(w, e) && RunningKnown(w.s)
    ensures name in After(w, e).s.tasks <==> SaysRunning(e, name) || (name in w.s.tasks && !SaysEnded(e, name))
  {
    hide AfterLaunch, Reported, OnStatus, RunningKnown;
    if e.Status? {
      ReportedSched(w, e);
      ReportMeans(w.s, e, name, "");
    } else if IsOfferEvent(e) {
      OfferEventKeeps(w, e);
    } else if IsLaunchEvent(e) {
      LaunchEventKeeps(w, e);
    }
  }

  /** A task is on record exactly if it has been reported running and not ended since, also from
      before the last registration. */
  lemma {:induction false} TasksAreReported(u: Run, k: nat, name: string)
    requires IsRun(u) && k <= |u.events|
    ensures name in u.states[k].s.tasks <==> Said(u, k, e => SaysRunning(e, name), e => SaysEnded(e, name))
  {
    if k > 0 {
      TasksAreReported(u, k - 1, name);
      RunKeepsBasics(u, k - 1);
      assert StepAt(u, k - 1);
      hide SaysRunning, SaysEnded, After, Enabled, Said, RunningKnown;
      TasksStep(u.states[k - 1], u.events[k - 1], name);
      SaidStep(u, k, e => SaysRunning(e, name), e => SaysEnded(e, name));
    }
  }

  // ---------------------------------------------------------------- heard from

  predicate Hears(e: Event, id: string) {
    e.Status? && e.taskId == id && Parse(id).Some?
  }

  lemma HeardStep(w: World, e: Event, id: string)
    requires Enabled(w, e)
    ensures id in After(w, e).s.heardFrom <==> Hears(e, id) || (id in w.s.heardFrom && !e.Register?)
  {
    hide AfterLaunch, Reported, OnStatus;
    if e.Status? {
      ReportedSched(w, e);
      ReportMeans(w.s, e, "", id);
    } else if IsOfferEvent(e) {
      OfferEventKeeps(w, e);
    } else if IsLaunchEvent(e) {
      LaunchEventKeeps(w, e);
    }
  }

  /** A task counts as heard from exactly if any report with its readable id has come in since
      the last registration. */
  lemma {:induction false} HeardIsReported(u: Run, k: nat, id: string)
    requires IsRun(u) && k <= |u.events|
    ensures id in u.states[k].s.heardFrom <==> Said(u, k, e => Hears(e, id), (e: Event) => e.Register?)
  {
    if k > 0 {
      HeardIsReported(u, k - 1, id);
      assert StepAt(u, k - 1);
      hide Hears, After, Enabled, Said;
      HeardStep(u.states[k - 1], u.events[k - 1], id);
      SaidStep(u, k, e => Hears(e, id), (e: Event) => e.Register?);
    }
  }

  // ---------------------------------------------------------------- pending launches

  /** The event at j is the launch of an instance of that name. */
  ghost predicate Launches(u: Run, j: nat, name: string)
    requires Steps(u) && j < |u.events|
  {
    u.events[j] == Commit(true) && u.states[j + 1].pc.Launching? && u.states[j + 1].pc.n.name == name
  }

  ghost predicate LaunchedSince(u: Run, j: nat, k: nat, name: string)
    requires Steps(u) && j < k <= |u.events|
  {
    Launches(u, j, name) && forall i | j < i < k :: !(SaysRunning(u.events[i], name) || SaysEnded(u.events[i], name))
  }

  ghost predicate Awaits(u: Run, k: nat, name: string)
    requires Steps(u) && k <= |u.events|
  {
    exists j {:trigger LaunchedSince(u, j, k, name)} :: 0 <= j < k && LaunchedSince(u, j, k, name)
  }

  lemma AwaitsStep(u: Run, k: nat, name: string)
    requires Steps(u) && 0 < k <= |u.events|
    ensures Awaits(u, k, name) <==>
              Launches(u, k - 1, name)
              || (Awaits(u, k - 1, name) && !(SaysRunning(u.events[k - 1], name) || SaysEnded(u.events[k - 1], name)))
  {
    hide SaysRunning, SaysEnded, Launches, StepAt;
    if Launches(u, k - 1, name) {
      assert LaunchedSince(u, k - 1, k, name);
    } else if Awaits(u, k - 1, name) && !(SaysRunning(u.events[k - 1], name) || SaysEnded(u.events[k - 1], name)) {
      var j :| 0 <= j < k - 1 && LaunchedSince(u, j, k - 1, name);
      assert LaunchedSince(u, j, k, name);
    }
    if Awaits(u, k, name) && !Launches(u, k - 1, name) {
      var j :| 0 <= j < k && LaunchedSince(u, j, k, name);
      assert LaunchedSince(u, j, k - 1, name);
    }
  }

  lemma CommitPends(w: World, ok: bool, name: string)
    requires Enabled(w, Commit(ok))
    ensures var w' := AfterLaunch(w, Commit(ok));
            name in w'.s.pending <==> (ok && w'.pc.Launching? && w'.pc.n.name == name) || name in w.s.pending
  {
    hide NewNode;
  }

  lemma PendingStep(w: World, e: Event, name: string)
    requires Enabled(w, e)
    ensures var w' := After(w, e);
            name in w'.s.pending <==>
              (e == Commit(true) && w'.pc.Launching? && w'.pc.n.name == name)
              || (name in w.s.pending && !(SaysRunning(e, name) || SaysEnded(e, name)))
  {
    hide AfterLaunch, Reported, OnStatus;
    if e.Status? {
      ReportedSched(w, e);
      ReportMeans(w.s, e, name, "");
    } else if IsOfferEvent(e) {
      OfferEventKeeps(w, e);
    } else if e.Commit? {
      CommitPends(w, e.ok, name);
    } else if IsLaunchEvent(e) {
      LaunchEventKeeps(w, e);
    }
  }

  /** A launch is pending exactly if it has been made and its instance has been reported neither
      running nor ended since. */
  lemma {:induction false} PendingIsLaunched(u: Run, k: nat, name: string)
    requires IsRun(u) && k <= |u.events|
    ensures name in u.states[k].s.pending <==> Awaits(u, k, name)
  {
    if k > 0 {
      PendingIsLaunched(u, k - 1, name);
      assert StepAt(u, k - 1);
      hide SaysRunning, SaysEnded, After, Enabled, Awaits;
      PendingStep(u.states[k - 1], u.events[k - 1], name);
      AwaitsStep(u, k, name);
    }
  }

  // ---------------------------------------------------------------- what is to be reconciled

  /** A report on the record of what is to be reconciled: RUNNING enters the task with its slave,
      an end takes it out, and nothing else is touched. */
  lemma RecordMeans(s: Sched, e: Event, id: string)
    requires e.Status?
    ensures var s' := OnStatus(s, e.taskId, e.slave, e.report);
            && (id in s'.reconciliationInfo <==>
                  (Hears(e, id) && e.report.Running?) || (id in s.reconciliationInfo && !(Hears(e, id) && e.report.Terminal?)))
            && (id in s'.reconciliationInfo ==>
                  s'.reconciliationInfo[id] == if Hears(e, id) && e.report.Running? then e.slave else s.reconciliationInfo[id])
  {
    hide Parse, Raised;
  }

  /** In every step: the record is what a report makes of it, is cleared by a registration, and
      replaced by what an attempt to synchronise has read. The store is written by nothing but a
      report that an instance runs, and then holds the record as it is after it. */
  lemma RecordExactly(w: World, e: Event)
    requires Enabled(w, e)
    ensures var w' := After(w, e); var rec, rec' := w.s.reconciliationInfo, w'.s.reconciliationInfo;
            && (e.Register? ==> rec' == map[])
            && (e.Load? ==> rec' == w.sync.info) && (e.StaleLoad? ==> rec' == w.stale[e.i].info)
            && (!e.Status? && !e.Register? && !e.Load? && !e.StaleLoad? ==> rec' == rec)
            && (e.Status? ==> rec' == OnStatus(w.s, e.taskId, e.slave, e.report).reconciliationInfo)
            && w'.store == if e.Status? && e.report.Running? && Parse(e.taskId).Some? && e.saved then rec' else w.store
  {
    hide AfterLaunch, OnStatus, Parse;
    if IsOfferEvent(e) {
      OfferEventKeeps(w, e);
    } else if IsLaunchEvent(e) {
      LaunchEventKeeps(w, e);
    }
  }

  // ---------------------------------------------------------------- locked

  /** A mutable scheduler becomes immutable exactly by a disconnection, or by the report of an
      end after which no node is known to run: the loss of the whole cluster. */
  lemma ImmutableExactlyBy(w: World, e: Event)
    requires Enabled(w, e) && w.s.mutable
    ensures !After(w, e).s.mutable <==>
              e.Disconnect? || (e.Status? && e.report.Terminal? && Parse(e.taskId).Some? && After(w, e).s.running == map[])
  {
    hide AfterLaunch, Reported, OnStatus, Parse;
    if e.Status? {
      ReportedSched(w, e);
      ReportMeans(w.s, e, "", "");
    } else if IsOfferEvent(e) {
      OfferEventKeeps(w, e);
    } else if IsLaunchEvent(e) {
      LaunchEventKeeps(w, e);
    }
  }
}
