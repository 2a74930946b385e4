/** The scheduler gets where it wants to be: given offers enough, and nothing at fault, it
    launches until as many instances run as it is to run. */
module Growth {
  import opened Types
  import opened Text
  import opened Config
  import opened OfferCaches
  import opened SchedulerSpec
  import opened SchedulerSafety
  import opened LaunchBounds
  import opened Tenures
  import opened Records
  import opened Overruns

  /** Nothing is going on, and exactly the instances that run are known and live. Their slaves
      are among the given ones. */
  ghost predicate AtRest(w: World, slaves: set<string>, used: set<string>) {
    && w.s.mutable && !w.s.reseeding && w.sync.Synced? && w.pc.Idle? && w.s.pending == {} && w.cache == map[]
    && w.s.running.Keys == w.alive && w.received == used && 0 <= w.s.highest
    && forall n | n in w.s.running :: w.s.running[n].slave in slaves
  }

  /** Offers that fit, with ids and slaves of their own, from hosts whose names can be read. */
  ghost predicate Suitable(o: Offer) {
    o.fits && Plain(o.host) && o.port + 2 < TWO_64
  }

  ghost predicate Offers(os: seq<Offer>, slaves: set<string>, used: set<string>) {
    && (forall i | 0 <= i < |os| :: Suitable(os[i]) && os[i].slave !in slaves && os[i].id !in used)
    && (forall i, j | 0 <= i < j < |os| :: os[i].id != os[j].id && os[i].slave != os[j].slave)
  }

  lemma RestPoised(w: World, slaves: set<string>, used: set<string>, o: Offer)
    requires AtRest(w, slaves, used) && o.fits && o.slave !in slaves && o.id !in used && |w.alive| < w.s.desired
    ensures Poised(w, o) && Elsewhere(w, o)
  {
    assert |w.s.running| == |w.s.running.Keys|;
  }

  /** The new instance has been launched and reported running. */
  lemma EnteredRests(w: World, slaves: set<string>, used: set<string>, o: Offer, w1: World)
    requires AtRest(w, slaves, used) && LaunchedBy(w, o, w1) && w.s.highest < MAX_INT - 1
    requires Carries(String(NewNode(w.s, o)), NewNode(w.s, o).name) && NameIndex(NewNode(w.s, o).name) == Some(w.s.highest + 1)
    requires NewNode(w.s, o).name !in w.alive
    ensures var n := NewNode(w.s, o); n.name in w1.nodes
    ensures var n := NewNode(w.s, o); var w' := AfterRunning(w1, n.name);
            && AtRest(w', slaves + {o.slave}, used + {o.id}) && w'.alive == w.alive + {n.name}
            && w'.s.desired == w.s.desired && w'.s.single == w.s.single && w'.s.highest == w.s.highest + 1
            && FairBut(w1, Status(String(w1.nodes[n.name]), w1.nodes[n.name].slave, Running, true), NoFault)
  {
    var n := NewNode(w.s, o);
    assert n.slave == o.slave;
    hide String, Parse, NameIndex, NameOf, NewNode;
    assert w1.s.pending == {n.name};
  }

  lemma ReadyToGrow(w0: World, w: World, slaves: set<string>, used: set<string>, o: Offer)
    requires Fresh(w0) && Inheritable(w0) && Reaches(w0, w, NoFault) && AtRest(w, slaves, used) && Suitable(o)
    requires o.slave !in slaves && o.id !in used && |w.alive| < w.s.desired && w.s.highest < MAX_INT - 1
    ensures Poised(w, o) && Elsewhere(w, o)
    ensures var n := NewNode(w.s, o);
            n.name !in w.alive && Carries(String(n), n.name) && NameIndex(n.name) == Some(w.s.highest + 1)
  {
    RestPoised(w, slaves, used, o);
    NewIsFresh(w0, w, o);
    NewIsLegible(w.s, o);
    hide String, Carries, NameIndex, Reaches, Fresh, Inheritable, Poised, Elsewhere;
  }

  /** One instance more. */
  lemma GrowsByOne(w0: World, w: World, slaves: set<string>, used: set<string>, o: Offer) returns (w': World)
    requires Fresh(w0) && Inheritable(w0) && Reaches(w0, w, NoFault) && AtRest(w, slaves, used) && Suitable(o)
    requires o.slave !in slaves && o.id !in used && |w.alive| < w.s.desired && w.s.highest < MAX_INT - 1
    ensures Reaches(w0, w', NoFault) && AtRest(w', slaves + {o.slave}, used + {o.id}) && |w'.alive| == |w.alive| + 1
    ensures w'.s.desired == w.s.desired && w'.s.highest == w.s.highest + 1
  {
    hide Reaches, AtRest, Poised, Elsewhere, LaunchedBy, NewNode, String, Carries, NameIndex, FairBut, Suitable, Fresh, Inheritable,
      AfterRunning;
    ReadyToGrow(w0, w, slaves, used, o);
    var w1 := LaunchOne(w0, w, o, NoFault);
    EnteredRests(w, slaves, used, o, w1);
    var n := NewNode(w.s, o);
    RunningStep(w0, w1, n.name, NoFault);
    w' := AfterRunning(w1, n.name);
  }

  lemma NewIsFresh(w0: World, w: World, o: Offer)
    requires Fresh(w0) && Inheritable(w0) && Reaches(w0, w, NoFault) && w.sync.Synced? && w.s.running.Keys == w.alive
    requires w.s.highest < MAX_INT
    ensures NewNode(w.s, o).name !in w.alive
  {
    hide NewNode;
    ReachesTenure(w0, w);
    NewNameIsFresh(w, o);
    assert Instances(CrewOf(w)) <= w.used;
  }

  lemma {:induction false} GrowsBy(w0: World, w: World, slaves: set<string>, used: set<string>, os: seq<Offer>) returns (w': World)
    requires Fresh(w0) && Inheritable(w0) && Reaches(w0, w, NoFault) && AtRest(w, slaves, used) && Offers(os, slaves, used)
    requires |w.alive| + |os| <= w.s.desired && w.s.highest + |os| < MAX_INT
    ensures Reaches(w0, w', NoFault) && |w'.alive| == |w.alive| + |os| && w'.s.running.Keys == w'.alive && w'.s.pending == {}
    ensures w'.s.desired == w.s.desired && w'.s.mutable
    decreases |os|
  {
    hide Reaches, Fresh, Inheritable, Suitable;
    if os == [] {
      w' := w;
    } else {
      var w1 := GrowsByOne(w0, w, slaves, used, os[0]);
      assert Offers(os[1..], slaves + {os[0].slave}, used + {os[0].id});
      w' := GrowsBy(w0, w1, slaves + {os[0].slave}, used + {os[0].id}, os[1..]);
    }
  }

  /** From every new scheduler that finds nothing running: with an offer for each instance that
      it is to run, from different slaves, there is a run without any fault at whose end exactly
      that many live, and all are known to run. */
  lemma GrowsToDesired(w: World, os: seq<Offer>) returns (w': World)
    requires Fresh(w) && w.alive == {} && w.store == map[] && Named(w.nodes) && |os| == w.s.desired
    requires Offers(os, {}, {}) && w.s.highest + |os| < MAX_INT
    ensures Reaches(w, w', NoFault) && |w'.alive| == w.s.desired && w'.s.running.Keys == w'.alive && w'.s.pending == {}
  {
    var w1 := StartsEmpty(w);
    assert Inheritable(w);
    assert w1.s.running.Keys == {};
    assert AtRest(w1, {}, {});
    hide Reaches, Fresh, Inheritable, AtRest, Offers;
    w' := GrowsBy(w, w1, {}, {}, os);
  }

  lemma StartsEmpty(w: World) returns (w': World)
    requires Fresh(w) && w.alive == {} && w.store == map[]
    ensures Reaches(w, w', NoFault) && w'.s.mutable && w'.sync.Synced? && w' == w.(s := w'.s, sync := w'.sync, stale := w'.stale)
    ensures w'.s == w.s.(mutable := true)
  {
    hide Reaches, Covers;
    Nobody(w);
    Enrol(w, NoFault);
    assert w.store.Keys == {};
    Open(w, Loaded(w), NoFault);
    w' := Opened(Loaded(w));
  }
}
