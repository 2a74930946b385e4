/** The scheduler as a state machine. Each region that the source runs under its lock, or
    under the lock of the offer cache, is one step; between them anything may happen. A
    call that declines an offer touches no state and belongs to the step before it. */
module SchedulerSpec {
  import opened Types
  import opened Text
  import opened Config
  import opened OfferCaches

  // ---------------------------------------------------------------- what the scheduler knows

  datatype Sched = Sched(
    desired: nat,
    single: bool,
    mutable: bool,
    reseeding: bool,
    running: map<string, Node>,
    pending: set<string>,
    tasks: map<string, string>,
    heardFrom: set<string>,
    reconciliationInfo: map<string, string>,
    highest: int)

  datatype Report = Terminal | Starting | Running | Other

  /** 64-bit signed increment. */
  function Increment(n: int): int {
    if n == MAX_INT then -MAX_INT - 1 else n + 1
  }

  /** A number above the highest known one raises it to one more. */
  function Raised(highest: int, name: string): int {
    match NameIndex(name)
    case None => highest
    case Some(i) => if i > highest then Increment(i) else highest
  }

  function OnStatus(s: Sched, taskId: string, slave: string, report: Report): Sched {
    match Parse(taskId)
    case None => s
    case Some(n) =>
      var s1 := s.(heardFrom := s.heardFrom + {taskId});
      match report
      case Terminal =>
        var running := s.running - {n.name};
        s1.(pending := s.pending - {n.name}, running := running, tasks := s.tasks - {n.name},
            reconciliationInfo := s.reconciliationInfo - {taskId},
            mutable := s.mutable && running != map[])
      case Running =>
        s1.(reconciliationInfo := s.reconciliationInfo[taskId := slave],
            pending := s.pending - {n.name},
            running := if n.name in s.running then s.running else s.running[n.name := n.(slave := slave)],
            tasks := if n.name in s.running then s.tasks else s.tasks[n.name := taskId],
            highest := Raised(s.highest, n.name))
      case _ => s1
  }

  /** What the scheduler's own state says about launching; the outside must agree too. */
  predicate CanLaunch(s: Sched) {
    s.mutable && !s.reseeding && s.pending == {} && |s.running| < s.desired
  }

  predicate UsesSlave(s: Sched, slave: string) {
    exists n :: n in s.running && s.running[n].slave == slave
  }

  function NewNode(s: Sched, o: Offer): Node {
    Node(NameOf(Increment(s.highest)), o.host, o.port, o.port + 1, o.port + 2,
         if s.running == map[] then "new" else "existing", o.slave)
  }

  function Committed(s: Sched, o: Offer): Sched {
    s.(highest := Increment(s.highest), pending := s.pending + {NewNode(s, o).name})
  }

  /** Forget what the last master told us. */
  function Initialized(s: Sched): Sched {
    s.(running := map[], heardFrom := {}, reconciliationInfo := map[])
  }

  // ---------------------------------------------------------------- the whole machine

  /** A received offer on its way through the checks. */
  datatype Stage = New | StateOK | SlaveOK

  datatype Arrival = Arrival(o: Offer, stage: Stage)

  /** Where the launcher is in one attempt. */
  datatype Pc =
    | Idle
    | Checked
    | Popped(o: Offer)
    | Held(o: Offer)
    | Cleared(o: Offer)
    | Launching(o: Offer, n: Node)

  /** Where an attempt to synchronise with the master is. Before the first registration there
      is none. It reads the store first and takes what it has read under the lock; `loaded` are
      the task ids that it found there. */
  datatype Sync =
    | Unregistered
    | Loading
    | Fetched(info: map<string, string>)
    | Waiting(loaded: set<string>)
    | InSync(loaded: set<string>)
    | Synced

  datatype Fate = Declined | Used | Withdrawn

  /** `sync` is the attempt of the last registration, `stale` those of earlier ones that may
      still be going on. `store` is the record of task ids that outlives the scheduler. `nodes` are the instances ever launched, by this scheduler or one
      before it, and `alive` the names of those that have not been reported ended since. `used`
      are the names that this scheduler has launched or heard to be running. */
  datatype World = World(
    s: Sched,
    arriving: map<string, Arrival>,
    cache: map<string, Offer>,
    timers: set<string>,
    pc: Pc,
    sync: Sync,
    stale: seq<Sync>,
    store: map<string, string>,
    received: set<string>,
    fates: seq<(string, Fate)>,
    nodes: map<string, Node>,
    alive: set<string>,
    used: set<string>)

  datatype Event =
    | Arrive(o: Offer)
    | CheckState(id: string)
    | CheckSlave(id: string)
    | Push(id: string)
    | Timer(id: string)
    | Rescinded(id: string)
    | Check(willing: bool)
    | Pop(id: string)
    | Validate
    | Recheck(willing: bool)
    | Commit(ok: bool)
    | Launch
    | Status(taskId: string, slave: string, report: Report, saved: bool)
    | Disconnect
    | Register
    | Fetch
    | Load
    | SyncCheck
    | SyncDone
    | StaleFetch(i: nat)
    | StaleLoad(i: nat)
    | StaleCheck(i: nat)
    | StaleDone(i: nat)
    | ReseedBegin
    | ReseedRun

  predicate AtStage(w: World, id: string, stage: Stage) {
    id in w.arriving && w.arriving[id].stage == stage
  }

  predicate Enabled(w: World, e: Event) {
    match e
    case Arrive(o) => o.id !in w.received
    case CheckState(id) => AtStage(w, id, New)
    case CheckSlave(id) => AtStage(w, id, StateOK)
    case Push(id) => AtStage(w, id, SlaveOK)
    case Timer(id) => id in w.timers
    case Rescinded(id) => true
    case Check(_) => w.pc.Idle?
    case Pop(id) => w.pc.Checked? && id in w.cache
    case Validate => w.pc.Popped?
    case Recheck(_) => w.pc.Held?
    case Commit(_) => w.pc.Cleared?
    case Launch => w.pc.Launching?
    case Fetch => w.sync.Loading? || w.sync.Waiting?
    case Load => w.sync.Fetched?
    case SyncCheck => w.sync.Waiting?
    case SyncDone => w.sync.InSync?
    case StaleFetch(i) => i < |w.stale| && (w.stale[i].Loading? || w.stale[i].Waiting?)
    case StaleLoad(i) => i < |w.stale| && w.stale[i].Fetched?
    case StaleCheck(i) => i < |w.stale| && w.stale[i].Waiting?
    case StaleDone(i) => i < |w.stale| && w.stale[i].InSync?
    case ReseedRun => w.s.reseeding
    case _ => true
  }

  function Settle(w: World, id: string, f: Fate): World {
    w.(fates := w.fates + [(id, f)])
  }

  function Advance(w: World, id: string, ok: bool, next: Stage): World
    requires id in w.arriving
  {
    if ok then w.(arriving := w.arriving[id := w.arriving[id].(stage := next)])
    else Settle(w.(arriving := w.arriving - {id}), id, Declined)
  }

  predicate Accepts(w: World, o: Offer) {
    && o.fits && |w.cache| < w.s.desired
    && (w.s.single ==> forall i | i in w.cache :: w.cache[i].slave != o.slave)
  }

  function Cached(w: World, id: string): World
    requires id in w.arriving
  {
    var o := w.arriving[id].o;
    w.(arriving := w.arriving - {id}, cache := w.cache[id := o], timers := w.timers + {id})
  }

  function Uncached(w: World, id: string, f: Fate): World {
    if id in w.cache then Settle(w.(cache := w.cache - {id}), id, f) else w
  }

  /** A report. That an instance runs is written to the store, which may fail. */
  function Reported(w: World, taskId: string, slave: string, report: Report, saved: bool): World {
    var w1 := w.(s := OnStatus(w.s, taskId, slave, report));
    match Parse(taskId)
    case None => w1
    case Some(n) =>
      if report.Terminal? then w1.(alive := w.alive - {n.name})
      else if report.Running? then w1.(used := w.used + {n.name}, store := if saved then w1.s.reconciliationInfo else w.store)
      else w1
  }

  function AfterLaunch(w: World, e: Event): World
    requires Enabled(w, e) && (e.Check? || e.Pop? || e.Validate? || e.Recheck? || e.Commit? || e.Launch?)
  {
    match e
    case Check(willing) => if CanLaunch(w.s) && willing then w.(pc := Checked) else w
    case Pop(id) => w.(cache := w.cache - {id}, pc := Popped(w.cache[id]))
    case Validate =>
      var o := w.pc.o;
      if w.s.single && UsesSlave(w.s, o.slave) then Settle(w.(pc := Checked), o.id, Declined)
      else w.(pc := Held(o))
    case Recheck(willing) =>
      var o := w.pc.o;
      if CanLaunch(w.s) && willing then w.(pc := Cleared(o)) else Settle(w.(pc := Idle), o.id, Declined)
    case Commit(ok) =>
      var o := w.pc.o;
      var n := NewNode(w.s, o);
      if !ok then Settle(w.(pc := Idle, s := w.s.(highest := Increment(w.s.highest))), o.id, Declined)
      else w.(pc := Launching(o, n), s := Committed(w.s, o), nodes := w.nodes[n.name := n], used := w.used + {n.name})
    case Launch =>
      Settle(w.(pc := Idle, alive := w.alive + {w.pc.n.name}), w.pc.o.id, Used)
  }

  function SyncChecked(s: Sched, a: Sync): Sync
    requires a.Waiting?
  {
    if s.reconciliationInfo.Keys <= s.heardFrom then InSync(a.loaded) else a
  }

  function After(w: World, e: Event): World
    requires Enabled(w, e)
  {
    match e
    case Arrive(o) => w.(received := w.received + {o.id}, arriving := w.arriving[o.id := Arrival(o, New)])
    case CheckState(id) => Advance(w, id, w.s.mutable, StateOK)
    case CheckSlave(id) => Advance(w, id, !(w.s.single && UsesSlave(w.s, w.arriving[id].o.slave)), SlaveOK)
    case Push(id) =>
      if Accepts(w, w.arriving[id].o) then Cached(w, id)
      else Settle(w.(arriving := w.arriving - {id}), id, Declined)
    case Timer(id) => Uncached(w.(timers := w.timers - {id}), id, Declined)
    case Rescinded(id) => Uncached(w, id, Withdrawn)
    case Status(taskId, slave, report, saved) => Reported(w, taskId, slave, report, saved)
    case Disconnect => w.(s := w.s.(mutable := false))
    case Register => w.(s := Initialized(w.s), sync := Loading, stale := w.stale + [w.sync])
    case Fetch => w.(sync := Fetched(w.store))
    case Load => w.(s := w.s.(reconciliationInfo := w.sync.info), sync := Waiting(w.sync.info.Keys))
    case SyncCheck => w.(sync := SyncChecked(w.s, w.sync))
    case SyncDone => w.(s := w.s.(mutable := true), sync := Synced)
    case StaleFetch(i) => w.(stale := w.stale[i := Fetched(w.store)])
    case StaleLoad(i) =>
      w.(s := w.s.(reconciliationInfo := w.stale[i].info), stale := w.stale[i := Waiting(w.stale[i].info.Keys)])
    case StaleCheck(i) => w.(stale := w.stale[i := SyncChecked(w.s, w.stale[i])])
    case StaleDone(i) => w.(s := w.s.(mutable := true), stale := w.stale[i := Synced])
    case ReseedBegin => w.(s := w.s.(reseeding := true))
    case ReseedRun => w.(s := w.s.(mutable := true, reseeding := false))
    case _ => AfterLaunch(w, e)
  }

  predicate IsOfferEvent(e: Event) {
    e.Arrive? || e.CheckState? || e.CheckSlave? || e.Push? || e.Timer? || e.Rescinded?
  }

  predicate IsLaunchEvent(e: Event) {
    e.Check? || e.Pop? || e.Validate? || e.Recheck? || e.Commit? || e.Launch?
  }

  /** Handling an offer changes nothing but where the offer is. */
  lemma OfferEventKeeps(w: World, e: Event)
    requires Enabled(w, e) && IsOfferEvent(e)
    ensures var w' := After(w, e);
            && w'.s == w.s && w'.pc == w.pc && w'.sync == w.sync && w'.stale == w.stale && w'.store == w.store
            && w'.nodes == w.nodes && w'.alive == w.alive && w'.used == w.used
  {
    hide UsesSlave, Accepts;
  }

  /** The launcher changes the scheduler's state only where it commits. */
  lemma LaunchEventKeeps(w: World, e: Event)
    requires Enabled(w, e) && IsLaunchEvent(e)
    ensures var w' := After(w, e);
            && w'.sync == w.sync && w'.stale == w.stale && w'.store == w.store
            && (!e.Commit? ==> w'.s == w.s && w'.nodes == w.nodes && w'.used == w.used)
            && (e.Commit? ==> w'.s == w.s.(highest := w'.s.highest, pending := w'.s.pending))
            && (!e.Launch? ==> w'.alive == w.alive)
  {
    if e.Commit? {
      CommitEventKeeps(w, e.ok);
    } else {
      CheckEventKeeps(w, e);
    }
  }

  lemma CommitEventKeeps(w: World, ok: bool)
    requires Enabled(w, Commit(ok))
    ensures var w' := AfterLaunch(w, Commit(ok));
            w' == w.(pc := w'.pc, s := w'.s, nodes := w'.nodes, used := w'.used, fates := w'.fates)
            && w'.s == w.s.(highest := w'.s.highest, pending := w'.s.pending)
  {
    hide NewNode;
  }

  lemma CheckEventKeeps(w: World, e: Event)
    requires Enabled(w, e) && IsLaunchEvent(e) && !e.Commit?
    ensures var w' := AfterLaunch(w, e);
            w' == w.(pc := w'.pc, cache := w'.cache, fates := w'.fates, alive := w'.alive) && (!e.Launch? ==> w'.alive == w.alive)
  {
    hide UsesSlave, CanLaunch;
  }

  /** A scheduler that has just been created, perhaps with instances and the record of an
      earlier one about. Its instance numbers start at the time of day. */
  predicate Fresh(w: World) {
    && w == World(w.s, map[], map[], {}, Idle, Unregistered, [], w.store, {}, [], w.nodes, w.alive, {})
    && w.s == Sched(w.s.desired, w.s.single, false, false, map[], {}, map[], {}, map[], w.s.highest)
    && 0 <= w.s.highest <= MAX_INT
  }

  datatype Run = Run(states: seq<World>, events: seq<Event>)

  predicate Steps(u: Run) {
    && |u.states| == |u.events| + 1
    && forall k {:trigger StepAt(u, k)} | 0 <= k < |u.events| :: StepAt(u, k)
  }

  predicate StepAt(u: Run, k: nat)
    requires |u.states| == |u.events| + 1 && k < |u.events|
  {
    Enabled(u.states[k], u.events[k]) && u.states[k + 1] == After(u.states[k], u.events[k])
  }

  predicate IsRun(u: Run) {
    Steps(u) && Fresh(u.states[0])
  }
}
