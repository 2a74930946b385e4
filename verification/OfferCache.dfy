/** A cache of resource offers: a set of the offers that may be used, and a bounded queue in
    which they wait. The queue may also hold offers that have left the set. Poppers take from
    the queue at any time, outside the lock, and look at the set afterwards. */
module OfferCaches {
  import opened Types

  datatype Offer = Offer(id: string, slave: string, host: string, port: nat, fits: bool)

  /** All ids in the sequence are different. */
  predicate Distinct(s: seq<Offer>) {
    forall i, j | 0 <= i < j < |s| :: s[i].id != s[j].id
  }

  predicate DistinctSlaves(m: map<string, Offer>) {
    forall a, b | a in m && b in m && a != b :: m[a].slave != m[b].slave
  }

  function Ids(s: seq<Offer>): set<string> {
    set o | o in s :: o.id
  }

  lemma {:induction false} DistinctCount(s: seq<Offer>)
    requires Distinct(s)
    ensures |Ids(s)| == |s|
  {
    if s != [] {
      var n := |s| - 1;
      DistinctCount(s[..n]);
      assert Ids(s) == Ids(s[..n]) + {s[n].id} by {
        assert s == s[..n] + [s[n]];
      }
      assert s[n].id !in Ids(s[..n]);
    }
  }

  lemma SubsetCount(a: set<string>, b: set<string>)
    requires a <= b
    ensures |a| <= |b|
  {
    if a != {} {
      var x :| x in a;
      SubsetCount(a - {x}, b - {x});
    }
  }

  /** Pigeonhole: valid offers that wait, all different and none of them the new one, are
      fewer than the offers in the set. */
  lemma FewerThanSet(s: seq<Offer>, ids: set<string>, new_: string)
    requires Distinct(s) && new_ in ids && forall o | o in s :: o.id in ids && o.id != new_
    ensures |s| < |ids|
  {
    DistinctCount(s);
    SubsetCount(Ids(s), ids - {new_});
  }

  /** The set is within its bound, its offers stand under their ids, and in single-instance
      mode their slaves differ. */
  ghost predicate SetOK(m: map<string, Offer>, seen: set<string>, max: nat, single: bool) {
    && |m| <= max
    && (forall i | i in m :: m[i].id == i && i in seen)
    && (single ==> DistinctSlaves(m))
  }

  /** Nothing waits twice, and what waits under an id of the set is that offer. */
  ghost predicate Waiting(m: map<string, Offer>, w: seq<Offer>, seen: set<string>) {
    && Distinct(w)
    && (forall o | o in w :: o.id in seen && (o.id in m ==> m[o.id] == o))
  }

  /** Every offer of the set waits. */
  ghost predicate Covered(m: map<string, Offer>, w: seq<Offer>) {
    forall i | i in m :: m[i] in w
  }

  /** Every offer of the set waits, except one. */
  ghost predicate CoveredBut(m: map<string, Offer>, w: seq<Offer>, new_: Offer) {
    && new_.id in m && m[new_.id] == new_
    && (forall o | o in w :: o.id != new_.id)
    && forall i | i in m && i != new_.id :: m[i] in w
  }

  /** The same offers wait, perhaps in another order. */
  ghost predicate Same(w: seq<Offer>, w': seq<Offer>) {
    forall x :: x in w <==> x in w'
  }

  lemma SameCovered(m: map<string, Offer>, w: seq<Offer>, w': seq<Offer>, new_: Offer)
    requires Same(w, w')
    ensures Covered(m, w) ==> Covered(m, w')
    ensures CoveredBut(m, w, new_) ==> CoveredBut(m, w', new_)
  {
  }

  lemma SetShrinks(m: map<string, Offer>, seen: set<string>, max: nat, single: bool, id: string)
    requires SetOK(m, seen, max, single)
    ensures SetOK(m - {id}, seen, max, single)
  {
    var m' := m - {id};
    assert m'.Keys <= m.Keys;
    SubsetCount(m'.Keys, m.Keys);
    assert |m'.Keys| == |m'| && |m.Keys| == |m|;
  }

  lemma SetGrows(m: map<string, Offer>, seen: set<string>, max: nat, single: bool, o: Offer)
    requires SetOK(m, seen, max, single) && |m| < max && o.id !in seen
    requires single ==> forall i | i in m :: m[i].slave != o.slave
    ensures SetOK(m[o.id := o], seen + {o.id}, max, single)
  {
  }

  lemma StillWaiting(m: map<string, Offer>, w: seq<Offer>, seen: set<string>, m': map<string, Offer>, w': seq<Offer>, seen': set<string>)
    requires Waiting(m, w, seen) && Distinct(w') && (forall x | x in w' :: x in w) && seen <= seen'
    requires forall i | i in m' && i in seen :: i in m && m'[i] == m[i]
    ensures Waiting(m', w', seen')
  {
  }

  class OfferCache {
    var offerSet: map<string, Offer>
    var offerQueue: seq<Offer>
    const maxOffers: nat
    const singleInstancePerSlave: bool
    // Offers that poppers have taken from the queue and not yet looked up in the set.
    ghost var hands: seq<Offer>
    // Every id ever pushed.
    ghost var seen: set<string>

    ghost predicate Shape()
      reads this
    {
      && |offerQueue| <= maxOffers
      && SetOK(offerSet, seen, maxOffers, singleInstancePerSlave)
      && Waiting(offerSet, offerQueue + hands, seen)
    }

    /** Each offer of the set waits exactly once, in the queue or in a popper's hands. */
    ghost predicate Valid()
      reads this
    {
      Shape() && Covered(offerSet, offerQueue + hands)
    }

    /** The same, except for an offer that is about to be queued. */
    ghost predicate ValidBut(new_: Offer)
      reads this
    {
      Shape() && CoveredBut(offerSet, offerQueue + hands, new_)
    }

    constructor (maxOffers: nat, singleInstancePerSlave: bool)
      ensures Valid() && offerSet == map[] && offerQueue == [] && hands == [] && seen == {}
      ensures this.maxOffers == maxOffers && this.singleInstancePerSlave == singleInstancePerSlave
    {
      this.offerSet := map[];
      this.offerQueue := [];
      this.maxOffers := maxOffers;
      this.singleInstancePerSlave := singleInstancePerSlave;
      this.hands := [];
      this.seen := {};
    }

    /** A popper takes the oldest offer. This does not need the lock. */
    method Receive() returns (o: Offer)
      requires Shape() && offerQueue != []
      modifies this`offerQueue, this`hands
      ensures o == old(offerQueue[0]) && offerQueue == old(offerQueue[1..]) && hands == old(hands) + [o]
      ensures Shape() && Same(old(offerQueue + hands), offerQueue + hands)
    {
      o := offerQueue[0];
      MoveDistinct(offerQueue, hands);
      StillWaiting(offerSet, offerQueue + hands, seen, offerSet, offerQueue[1..] + (hands + [o]), seen);
      offerQueue := offerQueue[1..];
      hands := hands + [o];
    }

    /** Up to n poppers take an offer each. */
    method Poppers(n: nat)
      requires Shape()
      modifies this`offerQueue, this`hands
      ensures Shape() && |offerQueue| <= |old(offerQueue)| && Same(old(offerQueue + hands), offerQueue + hands)
      ensures offerQueue == old(offerQueue)[|old(offerQueue)| - |offerQueue|..]
    {
      hide SetOK, Waiting;
      var k := 0;
      while k < n && offerQueue != []
        invariant Shape() && |offerQueue| <= |old(offerQueue)|
        invariant Same(old(offerQueue + hands), offerQueue + hands)
        invariant offerQueue == old(offerQueue)[|old(offerQueue)| - |offerQueue|..]
      {
        var _ := Receive();
        k := k + 1;
      }
    }

    /** A popper looks its offer up: it may use it if it is still in the set. */
    method Claim(o: Offer) returns (ok: bool)
      requires Valid() && o in hands
      modifies this`offerSet, this`hands
      ensures Valid() && ok == (o.id in old(offerSet)) && (ok ==> old(offerSet)[o.id] == o)
      ensures offerSet == old(offerSet) - {o.id} && o !in hands
      ensures forall x :: x in hands <==> x in old(hands) && x != o
    {
      ghost var k :| 0 <= k < |hands| && hands[k] == o;
      hide SetOK, Waiting, Covered;
      ClaimLemma(k);
      ok := o.id in offerSet;
      if ok {
        offerSet := offerSet - {o.id};
      }
      hands := DropAt(hands, k);
    }

    lemma ClaimLemma(k: nat)
      requires Valid() && k < |hands|
      ensures var o, w' := hands[k], offerQueue + DropAt(hands, k);
              && SetOK(offerSet - {o.id}, seen, maxOffers, singleInstancePerSlave)
              && Waiting(offerSet - {o.id}, w', seen)
              && Covered(offerSet - {o.id}, w')
              && (forall x :: x in DropAt(hands, k) <==> x in hands && x != o)
              && (o.id in offerSet ==> offerSet[o.id] == o)
              && (o.id !in offerSet ==> offerSet - {o.id} == offerSet)
    {
      var o := hands[k];
      assert o == (offerQueue + hands)[|offerQueue| + k];
      DropDistinct(offerQueue, hands, k);
      SetShrinks(offerSet, seen, maxOffers, singleInstancePerSlave, o.id);
      StillWaiting(offerSet, offerQueue + hands, seen, offerSet - {o.id}, offerQueue + DropAt(hands, k), seen);
      hide SetOK, Waiting;
    }

    method Rescind(id: string) returns (present: bool)
      requires Valid()
      modifies this`offerSet
      ensures Valid() && present == (id in old(offerSet)) && offerSet == old(offerSet) - {id}
    {
      SetShrinks(offerSet, seen, maxOffers, singleInstancePerSlave, id);
      StillWaiting(offerSet, offerQueue + hands, seen, offerSet - {id}, offerQueue + hands, seen);
      present := id in offerSet;
      offerSet := offerSet - {id};
    }

    /** Whether some cached offer is from the slave. */
    method HasSlave(slave: string) returns (found: bool)
      ensures found <==> exists i :: i in offerSet && offerSet[i].slave == slave
    {
      var todo := offerSet.Keys;
      while todo != {}
        invariant todo <= offerSet.Keys
        invariant forall i | i in offerSet && i !in todo :: offerSet[i].slave != slave
      {
        var i :| i in todo;
        if offerSet[i].slave == slave {
          return true;
        }
        todo := todo - {i};
      }
      return false;
    }

    /** Go through the queue once, throwing out what has left the set. `steals` says how many
        offers poppers take before each receive and before each send. When the queue was full,
        a slot is free afterwards, and sending an offer back never finds the queue full. */
    method Gc(ghost new_: Offer, steals: nat -> nat, base: nat)
      requires ValidBut(new_)
      modifies this`offerQueue, this`hands
      ensures ValidBut(new_) && |offerQueue| < maxOffers
    {
      hide SetOK, Waiting, CoveredBut, Same, Checked;
      Room(new_);
      CheckedNone();
      var i := 0;
      while i < |offerSet| + 1
        invariant ValidBut(new_) && i <= |offerSet| + 1
        invariant |offerQueue| < maxOffers || Checked(i)
      {
        var more := GcRound(new_, i, steals(base + 2 * i), steals(base + 2 * i + 1));
        if !more {
          return;
        }
        i := i + 1;
      }
      if |offerQueue| == maxOffers {
        CheckedBound(new_, i);
      }
    }

    lemma Room(new_: Offer)
      requires ValidBut(new_)
      ensures 1 <= |offerSet| <= maxOffers && |offerQueue| <= maxOffers
    {
      assert offerSet != map[];
    }

    lemma CheckedNone()
      requires |offerQueue| <= maxOffers
      ensures |offerQueue| < maxOffers || Checked(0)
    {
    }

    /** One round of the loop; false when the queue was found empty. */
    method GcRound(ghost new_: Offer, ghost i: nat, n: nat, n': nat) returns (more: bool)
      requires ValidBut(new_) && (|offerQueue| < maxOffers || Checked(i))
      modifies this`offerQueue, this`hands
      ensures ValidBut(new_) && (|offerQueue| < maxOffers || Checked(i + 1))
      ensures !more ==> |offerQueue| < maxOffers
    {
      hide SetOK, Waiting, CoveredBut, Same;
      ghost var before := offerQueue + hands;
      Poppers(n);
      SameCovered(offerSet, before, offerQueue + hands, new_);
      Room(new_);
      if |offerQueue| == 0 {
        return false;
      }
      if |offerQueue| == maxOffers {
        CheckedBound(new_, i);
      }
      GcOne(new_, n');
      return true;
    }

    /** The last i offers of a full queue are still in the set. */
    ghost predicate Checked(i: nat)
      reads this
    {
      |offerQueue| == maxOffers && i <= maxOffers && forall k | maxOffers - i <= k < maxOffers :: offerQueue[k].id in offerSet
    }

    lemma CheckedBound(new_: Offer, i: nat)
      requires ValidBut(new_) && Checked(i)
      ensures i < |offerSet|
    {
      var tail := offerQueue[maxOffers - i..];
      forall o | o in tail ensures o.id in offerSet && o.id != new_.id {
        assert o in offerQueue + hands;
      }
      assert forall k | 0 <= k < |tail| :: tail[k] == (offerQueue + hands)[maxOffers - i + k];
      FewerThanSet(tail, offerSet.Keys, new_.id);
    }

    /** Take the oldest offer and send it back if it is valid. */
    method GcOne(ghost new_: Offer, n: nat)
      requires ValidBut(new_) && offerQueue != []
      modifies this`offerQueue, this`hands
      ensures ValidBut(new_) && |offerQueue| <= |old(offerQueue)|
      ensures |offerQueue| == |old(offerQueue)| ==>
                offerQueue == old(offerQueue[1..] + [offerQueue[0]]) && old(offerQueue[0]).id in offerSet
    {
      var o := offerQueue[0];
      DropFirstDistinct(offerQueue, hands);
      offerQueue := offerQueue[1..];
      if o.id in offerSet {
        Poppers(n);
        AddDistinct(offerQueue, hands, o);
        assert |offerQueue| < maxOffers;
        offerQueue := offerQueue + [o];
      }
    }

    /** Room in the set, and no cached offer from the same slave where that matters. */
    ghost predicate Accepts(o: Offer)
      reads this
    {
      |offerSet| < maxOffers && (singleInstancePerSlave ==> forall i | i in offerSet :: offerSet[i].slave != o.slave)
    }

    lemma InsertLemma(o: Offer)
      requires Valid() && o.id !in seen && Accepts(o)
      ensures var m' := offerSet[o.id := o];
              && SetOK(m', seen + {o.id}, maxOffers, singleInstancePerSlave)
              && Waiting(m', offerQueue + hands, seen + {o.id})
              && CoveredBut(m', offerQueue + hands, o)
    {
      SetGrows(offerSet, seen, maxOffers, singleInstancePerSlave, o);
      StillWaiting(offerSet, offerQueue + hands, seen, offerSet[o.id := o], offerQueue + hands, seen + {o.id});
    }

    lemma QueueLemma(o: Offer)
      requires ValidBut(o)
      ensures Waiting(offerSet, offerQueue + [o] + hands, seen) && Covered(offerSet, offerQueue + [o] + hands)
    {
      AddDistinct(offerQueue, hands, o);
    }

    /** An offer with a new id is refused only when the set is full or has an offer from the
        same slave, whatever the poppers do meanwhile; it is queued at the latest after one
        collection. */
    method Push(o: Offer, steals: nat -> nat) returns (ok: bool)
      requires Valid() && o.id !in seen
      modifies this
      ensures Valid() && ok == old(Accepts(o))
      ensures offerSet == if ok then old(offerSet)[o.id := o] else old(offerSet)
      ensures seen == if ok then old(seen) + {o.id} else old(seen)
    {
      hide SetOK, Waiting, Covered, CoveredBut;
      if |offerSet| < maxOffers {
        var found := HasSlave(o.slave);
        if found && singleInstancePerSlave {
          return false;
        }
        InsertLemma(o);
        offerSet := offerSet[o.id := o];
        seen := seen + {o.id};
        Enqueue(o, steals);
        return true;
      }
      return false;
    }

    /** Try to send, collect, try again. The second try always succeeds. */
    method Enqueue(o: Offer, steals: nat -> nat)
      requires ValidBut(o)
      modifies this`offerQueue, this`hands
      ensures Valid()
    {
      hide SetOK, Waiting, Covered, CoveredBut, Same;
      var i := 0;
      while i < 2
        invariant 0 <= i < 2 && ValidBut(o) && (i > 0 ==> |offerQueue| < maxOffers)
      {
        ghost var before := offerQueue + hands;
        Poppers(steals(i));
        SameCovered(offerSet, before, offerQueue + hands, o);
        if |offerQueue| < maxOffers {
          QueueLemma(o);
          offerQueue := offerQueue + [o];
          return;
        }
        Gc(o, steals, 2);
        i := i + 1;
      }
    }

    /** Take offers from the queue until one is still in the set. None means that the popper
        would wait. What it gets is the oldest valid offer. */
    method Pop() returns (r: Option<Offer>)
      requires Valid()
      modifies this
      ensures Valid() && seen == old(seen)
      ensures r.None? ==> offerQueue == [] && offerSet == old(offerSet)
      ensures r.Some? ==> r.value.id in old(offerSet) && old(offerSet)[r.value.id] == r.value && offerSet == old(offerSet) - {r.value.id}
      ensures r.Some? ==> exists k :: 0 <= k < |old(offerQueue)| && old(offerQueue)[k] == r.value
                                      && forall j | 0 <= j < k :: old(offerQueue)[j].id !in old(offerSet)
    {
      hide SetOK, Waiting, Covered, Same;
      ghost var k := 0;
      while offerQueue != []
        invariant Valid() && seen == old(seen) && offerSet == old(offerSet)
        invariant k <= |old(offerQueue)| && offerQueue == old(offerQueue)[k..]
        invariant forall j | 0 <= j < k :: old(offerQueue)[j].id !in old(offerSet)
        decreases |offerQueue|
      {
        ghost var before := offerQueue + hands;
        var o := Receive();
        SameCovered(offerSet, before, offerQueue + hands, o);
        var ok := Claim(o);
        if ok {
          return Some(o);
        }
        k := k + 1;
      }
      return None;
    }
  }

  // ---------------------------------------------------------------- sequences without repetition

  function DropAt(s: seq<Offer>, k: nat): seq<Offer>
    requires k < |s|
  {
    s[..k] + s[k + 1..]
  }

  lemma DropAtDistinct(s: seq<Offer>, k: nat)
    requires k < |s| && Distinct(s)
    ensures Distinct(DropAt(s, k)) && forall x :: x in DropAt(s, k) <==> x in s && x != s[k]
    ensures forall x | x in DropAt(s, k) :: x.id != s[k].id
  {
    var t := DropAt(s, k);
    forall i, j | 0 <= i < j < |t| ensures t[i].id != t[j].id {
      assert t[i] == s[if i < k then i else i + 1] && t[j] == s[if j < k then j else j + 1];
    }
    forall i | 0 <= i < |t| ensures t[i] in s && t[i].id != s[k].id {
      assert t[i] == s[if i < k then i else i + 1];
    }
    forall i | 0 <= i < |s| && i != k ensures s[i] in t {
      assert s[i] == t[if i < k then i else i - 1];
    }
  }

  lemma MoveDistinct(q: seq<Offer>, h: seq<Offer>)
    requires q != [] && Distinct(q + h)
    ensures Distinct(q[1..] + (h + [q[0]])) && forall x :: x in q[1..] + (h + [q[0]]) <==> x in q + h
  {
    DropAtDistinct(q + h, 0);
    assert DropAt(q + h, 0) == q[1..] + h;
    AddDistinct(q[1..] + h, [], q[0]);
    assert q[1..] + h + [] == q[1..] + h;
    assert q[1..] + h + [q[0]] + [] == q[1..] + (h + [q[0]]);
  }

  lemma DropDistinct(q: seq<Offer>, h: seq<Offer>, k: nat)
    requires k < |h| && Distinct(q + h)
    ensures Distinct(q + DropAt(h, k))
    ensures forall x :: x in q + DropAt(h, k) <==> x in q + h && x != h[k]
    ensures forall x :: x in DropAt(h, k) <==> x in h && x != h[k]
  {
    DropAtDistinct(q + h, |q| + k);
    assert DropAt(q + h, |q| + k) == q + DropAt(h, k);
    assert forall i, j | 0 <= i < j < |h| :: h[i] == (q + h)[|q| + i] && h[j] == (q + h)[|q| + j];
    DropAtDistinct(h, k);
  }

  lemma AddDistinct(q: seq<Offer>, h: seq<Offer>, o: Offer)
    requires Distinct(q + h) && forall x | x in q + h :: x.id != o.id
    ensures Distinct(q + [o] + h) && forall x :: x in q + [o] + h <==> x in q + h || x == o
  {
    var s, t := q + h, q + [o] + h;
    forall i, j | 0 <= i < j < |t| ensures t[i].id != t[j].id {
      if i != |q| && j != |q| {
        var a := if i < |q| then i else i - 1;
        var b := if j < |q| then j else j - 1;
        assert t[i] == s[a] && t[j] == s[b];
      } else if i == |q| {
        assert t[j] == s[j - 1];
      } else {
        assert t[i] == s[i];
      }
    }
  }

  lemma DropFirstDistinct(q: seq<Offer>, h: seq<Offer>)
    requires q != [] && Distinct(q + h)
    ensures Distinct(q[1..] + h) && forall x :: x in q[1..] + h <==> x in q + h && x != q[0]
    ensures forall x | x in q[1..] + h :: x.id != q[0].id
  {
    DropAtDistinct(q + h, 0);
    assert DropAt(q + h, 0) == q[1..] + h;
  }
}
