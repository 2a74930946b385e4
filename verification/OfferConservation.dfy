/** Every received offer is in exactly one place, or has met exactly one fate. */
module OfferConservation {
  import opened Types
  import opened OfferCaches
  import opened SchedulerSpec

  function Fated(fates: seq<(string, Fate)>, id: string): nat {
    if fates == [] then 0
    else Fated(fates[..|fates| - 1], id) + if fates[|fates| - 1].0 == id then 1 else 0
  }

  lemma FatedMore(fates: seq<(string, Fate)>, x: (string, Fate), id: string)
    ensures Fated(fates + [x], id) == Fated(fates, id) + if x.0 == id then 1 else 0
  {
    assert (fates + [x])[..|fates + [x]| - 1] == fates;
  }

  /** The launcher has the offer. */
  predicate Holds(pc: Pc, id: string) {
    match pc
    case Popped(o) => o.id == id
    case Held(o) => o.id == id
    case Cleared(o) => o.id == id
    case Launching(o, _) => o.id == id
    case _ => false
  }

  /** In how many places the offer is, counting the fates it has met. */
  function Places(w: World, id: string): nat {
    (if id in w.arriving then 1 else 0) + (if id in w.cache then 1 else 0) + (if Holds(w.pc, id) then 1 else 0)
    + Fated(w.fates, id)
  }

  /** Offers stand under their own ids, and each is in one place if received, else in none. */
  ghost predicate Conserved(w: World) {
    && (forall i | i in w.arriving :: w.arriving[i].o.id == i)
    && (forall i | i in w.cache :: w.cache[i].id == i)
    && forall id :: Places(w, id) == if id in w.received then 1 else 0
  }

  /** Offers stand where they stood, and one that left its place has met one more fate. */
  lemma Fates(w: World, w': World, id: string, f: Fate)
    requires Conserved(w) && w'.received == w.received && w'.fates == w.fates + [(id, f)]
    requires w'.arriving == w.arriving || (id in w.arriving && w'.arriving == w.arriving - {id})
    requires w'.cache == w.cache || (id in w.cache && w'.cache == w.cache - {id})
    requires forall i | i != id :: Holds(w'.pc, i) == Holds(w.pc, i)
    requires Places(w, id) == 1 && id !in w'.arriving && id !in w'.cache && !Holds(w'.pc, id)
    requires id in w.arriving || id in w.cache || Holds(w.pc, id)
    ensures Conserved(w')
  {
    forall i ensures Places(w', i) == Places(w, i) {
      FatedMore(w.fates, (id, f), i);
    }
  }

  /** No fate was met, and every offer is in as many places as before. */
  lemma Moves(w: World, w': World)
    requires Conserved(w) && w'.received == w.received && w'.fates == w.fates
    requires forall i | i in w'.arriving :: w'.arriving[i].o.id == i
    requires forall i | i in w'.cache :: w'.cache[i].id == i
    requires forall i :: (if i in w'.arriving then 1 else 0) + (if i in w'.cache then 1 else 0) + (if Holds(w'.pc, i) then 1 else 0)
                      == (if i in w.arriving then 1 else 0) + (if i in w.cache then 1 else 0) + (if Holds(w.pc, i) then 1 else 0)
    ensures Conserved(w')
  {
    forall i ensures Places(w', i) == Places(w, i) {
    }
  }

  lemma OnePlace(w: World, id: string)
    requires Conserved(w) && (id in w.arriving || id in w.cache || Holds(w.pc, id))
    ensures Places(w, id) == 1
  {
  }

  lemma ArriveConserves(w: World, o: Offer)
    requires Conserved(w) && Enabled(w, Arrive(o))
    ensures Conserved(After(w, Arrive(o)))
  {
    var w' := After(w, Arrive(o));
    assert Places(w, o.id) == 0;
    forall id ensures Places(w', id) == if id in w'.received then 1 else 0 {
      assert Places(w, id) == if id in w.received then 1 else 0;
    }
  }

  /** A check that an arriving offer passes or fails. */
  lemma AdvanceConserves(w: World, id: string, ok: bool, next: Stage)
    requires Conserved(w) && id in w.arriving
    ensures Conserved(Advance(w, id, ok, next))
  {
    OnePlace(w, id);
    if ok {
      Moves(w, Advance(w, id, ok, next));
    } else {
      Fates(w, Advance(w, id, ok, next), id, Declined);
    }
  }

  lemma CachedConserves(w: World, id: string)
    requires Conserved(w) && id in w.arriving
    ensures Conserved(Cached(w, id))
  {
    OnePlace(w, id);
    Moves(w, Cached(w, id));
  }

  lemma UncachedConserves(w: World, timers: set<string>, id: string, f: Fate)
    requires Conserved(w)
    ensures Conserved(Uncached(w.(timers := timers), id, f))
  {
    var w1 := w.(timers := timers);
    Moves(w, w1);
    if id in w.cache {
      OnePlace(w1, id);
      Fates(w1, Uncached(w1, id, f), id, f);
    }
  }

  lemma OfferStep(w: World, e: Event)
    requires Conserved(w) && Enabled(w, e)
    requires IsOfferEvent(e)
    ensures Conserved(After(w, e))
  {
    hide UsesSlave, Accepts, Conserved, Cached, Uncached;
    match e {
      case Arrive(o) => ArriveConserves(w, o);
      case CheckState(id) => AdvanceConserves(w, id, w.s.mutable, StateOK);
      case CheckSlave(id) => AdvanceConserves(w, id, !(w.s.single && UsesSlave(w.s, w.arriving[id].o.slave)), SlaveOK);
      case Push(id) =>
        CachedConserves(w, id);
        AdvanceConserves(w, id, false, SlaveOK);
      case Timer(id) => UncachedConserves(w, w.timers - {id}, id, Declined);
      case Rescinded(id) => UncachedConserves(w, w.timers, id, Withdrawn);
    }
  }

  lemma PopConserves(w: World, id: string)
    requires Conserved(w) && Enabled(w, Pop(id))
    ensures Conserved(After(w, Pop(id)))
  {
    OnePlace(w, id);
    Moves(w, After(w, Pop(id)));
  }

  predicate HoldsSome(pc: Pc) {
    pc.Popped? || pc.Held? || pc.Cleared? || pc.Launching?
  }

  /** What the launcher holds it goes on holding, or it is settled. */
  predicate Handled(w: World, w': World) {
    && w'.arriving == w.arriving && w'.cache == w.cache && w'.received == w.received
    && if w'.fates == w.fates then
         if HoldsSome(w.pc) then HoldsSome(w'.pc) && w'.pc.o == w.pc.o else !HoldsSome(w'.pc)
       else
         HoldsSome(w.pc) && !HoldsSome(w'.pc) && exists f :: w'.fates == w.fates + [(w.pc.o.id, f)]
  }

  lemma LaunchHandles(w: World, e: Event)
    requires Enabled(w, e) && IsLaunchEvent(e) && !e.Pop?
    ensures Handled(w, After(w, e))
  {
    hide Handled, AfterLaunch;
    if e.Commit? {
      CommitHandles(w, e.ok);
    } else {
      CheckHandles(w, e);
    }
  }

  lemma CommitHandles(w: World, ok: bool)
    requires Enabled(w, Commit(ok))
    ensures Handled(w, AfterLaunch(w, Commit(ok)))
  {
    hide NewNode, Committed;
    var w' := AfterLaunch(w, Commit(ok));
    if !ok {
      assert w'.fates == w.fates + [(w.pc.o.id, Declined)];
    }
  }

  lemma CheckHandles(w: World, e: Event)
    requires Enabled(w, e) && IsLaunchEvent(e) && !e.Pop? && !e.Commit?
    ensures Handled(w, AfterLaunch(w, e))
  {
    hide UsesSlave, CanLaunch;
    var w' := AfterLaunch(w, e);
    if w'.fates != w.fates {
      assert w'.fates == w.fates + [(w.pc.o.id, w'.fates[|w.fates|].1)];
    }
  }

  lemma LaunchStep(w: World, w': World)
    requires Conserved(w) && Handled(w, w')
    ensures Conserved(w')
  {
    hide Conserved, Fated, Places;
    if w'.fates == w.fates {
      Keyed(w);
      Moves(w, w');
    } else {
      var id := w.pc.o.id;
      var f :| w'.fates == w.fates + [(id, f)];
      OnePlace(w, id);
      NotElsewhere(w, id);
      Fates(w, w', id, f);
    }
  }

  lemma NotElsewhere(w: World, id: string)
    requires Conserved(w) && Holds(w.pc, id)
    ensures id !in w.arriving && id !in w.cache
  {
    OnePlace(w, id);
  }

  lemma Keyed(w: World)
    requires Conserved(w)
    ensures forall i | i in w.arriving :: w.arriving[i].o.id == i
    ensures forall i | i in w.cache :: w.cache[i].id == i
  {
  }

  lemma SameOffers(w: World, w': World)
    requires Conserved(w)
    requires w'.arriving == w.arriving && w'.cache == w.cache && w'.pc == w.pc && w'.fates == w.fates && w'.received == w.received
    ensures Conserved(w')
  {
    Moves(w, w');
  }

  lemma StepConserves(w: World, e: Event)
    requires Conserved(w) && Enabled(w, e)
    ensures Conserved(After(w, e))
  {
    hide Conserved;
    if IsOfferEvent(e) {
      OfferStep(w, e);
    } else if e.Pop? {
      PopConserves(w, e.id);
    } else if IsLaunchEvent(e) {
      LaunchHandles(w, e);
      LaunchStep(w, After(w, e));
    } else {
      SameOffers(w, After(w, e));
    }
  }

  lemma {:induction false} RunConserves(u: Run, k: nat)
    requires IsRun(u) && k < |u.states|
    ensures Conserved(u.states[k])
  {
    if k > 0 {
      RunConserves(u, k - 1);
      hide Conserved, After, Enabled;
      assert StepAt(u, k - 1);
      StepConserves(u.states[k - 1], u.events[k - 1]);
    }
  }

  /** In every interleaving of offers, timers, rescinds and launches: a received offer has met
      at most one fate, exactly one once it is no longer held anywhere, and an offer that was
      never received has met none. */
  lemma OneFateEach(u: Run, k: nat, id: string)
    requires IsRun(u) && k < |u.states|
    ensures var w := u.states[k];
            var held := id in w.arriving || id in w.cache || Holds(w.pc, id);
            && Fated(w.fates, id) == (if id in w.received && !held then 1 else 0)
            && (held ==> id in w.received)
            && !(id in w.arriving && id in w.cache) && !(id in w.arriving && Holds(w.pc, id))
            && !(id in w.cache && Holds(w.pc, id))
  {
    RunConserves(u, k);
    assert Places(u.states[k], id) == if id in u.states[k].received then 1 else 0;
  }

  /** A fate, once met, is not met again and not exchanged for another. */
  lemma {:induction false} FateIsFinal(u: Run, i: nat, j: nat, id: string, f: Fate)
    requires IsRun(u) && i <= j < |u.states| && (id, f) in u.states[i].fates
    ensures (id, f) in u.states[j].fates && Fated(u.states[j].fates, id) == 1
    ensures forall g | (id, g) in u.states[j].fates :: g == f
    decreases j
  {
    OneFateEach(u, j, id);
    if i < j {
      FateIsFinal(u, i, j - 1, id, f);
      assert StepAt(u, j - 1);
      FatesGrow(u.states[j - 1], u.events[j - 1]);
    }
    InFates(u.states[j].fates, id, f);
    forall g | (id, g) in u.states[j].fates ensures g == f {
      if g != f {
        TwoFates(u.states[j].fates, id, f, g);
      }
    }
  }

  lemma OfferFatesGrow(w: World, e: Event)
    requires Enabled(w, e) && IsOfferEvent(e)
    ensures w.fates <= After(w, e).fates
  {
    hide UsesSlave, Accepts;
  }

  lemma FatesGrow(w: World, e: Event)
    requires Enabled(w, e)
    ensures w.fates <= After(w, e).fates
  {
    if IsOfferEvent(e) {
      OfferFatesGrow(w, e);
    } else if IsLaunchEvent(e) && !e.Pop? {
      LaunchHandles(w, e);
      hide After;
    } else {
      hide OnStatus;
    }
  }

  lemma {:induction false} InFates(fates: seq<(string, Fate)>, id: string, f: Fate)
    requires (id, f) in fates
    ensures Fated(fates, id) >= 1
  {
    var n := |fates| - 1;
    assert fates == fates[..n] + [fates[n]];
    if fates[n] != (id, f) {
      InFates(fates[..n], id, f);
    }
  }

  lemma {:induction false} TwoFates(fates: seq<(string, Fate)>, id: string, f: Fate, g: Fate)
    requires (id, f) in fates && (id, g) in fates && f != g
    ensures Fated(fates, id) >= 2
  {
    var n := |fates| - 1;
    assert fates == fates[..n] + [fates[n]];
    if fates[n] == (id, f) {
      InFates(fates[..n], id, g);
    } else if fates[n] == (id, g) {
      InFates(fates[..n], id, f);
    } else {
      TwoFates(fates[..n], id, f, g);
    }
  }

  // ---------------------------------------------------------------- nothing is kept for ever

  /** Every cached offer has a timer that will decline it. */
  ghost predicate Timed(w: World) {
    w.cache.Keys <= w.timers
  }

  lemma TimedStep(w: World, e: Event)
    requires Enabled(w, e) && Timed(w)
    ensures Timed(After(w, e))
  {
    hide UsesSlave, Accepts, CanLaunch, NewNode, OnStatus;
    if IsLaunchEvent(e) {
      LaunchTimed(w, e);
      hide AfterLaunch;
    } else {
      hide AfterLaunch;
    }
  }

  lemma LaunchTimed(w: World, e: Event)
    requires Enabled(w, e) && IsLaunchEvent(e)
    ensures AfterLaunch(w, e).cache.Keys <= w.cache.Keys && AfterLaunch(w, e).timers == w.timers
  {
    hide UsesSlave, CanLaunch, NewNode, Committed, Increment;
    if e.Pop? {
      assert AfterLaunch(w, e).cache == w.cache - {e.id};
    } else {
      assert AfterLaunch(w, e).cache == w.cache;
    }
  }

  /** In every run every cached offer has a timer running; when it fires, the offer is no longer
      cached, and is declined exactly if it still was. */
  lemma {:induction false} CachedAreTimed(u: Run, k: nat)
    requires IsRun(u) && k < |u.states|
    ensures u.states[k].cache.Keys <= u.states[k].timers
    ensures forall id | id in u.states[k].cache ::
              && Enabled(u.states[k], Timer(id)) && id !in After(u.states[k], Timer(id)).cache
              && After(u.states[k], Timer(id)).fates == u.states[k].fates + [(id, Declined)]
  {
    if k > 0 {
      CachedAreTimed(u, k - 1);
      assert StepAt(u, k - 1);
      assert Timed(u.states[k - 1]);
      TimedStep(u.states[k - 1], u.events[k - 1]);
    }
    forall id | id in u.states[k].cache
      ensures Enabled(u.states[k], Timer(id)) && id !in After(u.states[k], Timer(id)).cache
      ensures After(u.states[k], Timer(id)).fates == u.states[k].fates + [(id, Declined)]
    {
      TimerSettles(u.states[k], id);
    }
  }

  lemma TimerSettles(w: World, id: string)
    requires Timed(w) && id in w.cache
    ensures Enabled(w, Timer(id)) && id !in After(w, Timer(id)).cache
    ensures After(w, Timer(id)).fates == w.fates + [(id, Declined)]
  {
  }
}
