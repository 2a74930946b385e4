/** The part of the log that has not been written to storage yet. */
module UnstableLog {
  import opened Types
  import opened LogView
  import opened TwoTier

  class Unstable {
    var snapshot: Option<Snapshot>
    var entries: seq<Entry>
    var offset: nat

    constructor (offset: nat)
      ensures this.snapshot == None && this.entries == [] && this.offset == offset
    {
      this.snapshot := None;
      this.entries := [];
      this.offset := offset;
    }

    /** The tiers this part forms together with a given storage. */
    function Over(st: seq<Entry>): Tiers
      reads this
    {
      Tiers(st, snapshot, entries, offset)
    }

    function MaybeFirstIndex(): Option<nat>
      reads this
    {
      if snapshot.Some? then Some(snapshot.value.index + 1) else None
    }

    /** The last position this part knows of: there is none exactly if it holds neither
        entries nor a snapshot. */
    function MaybeLastIndex(): (r: Option<nat>)
      reads this
      ensures r.None? <==> entries == [] && snapshot.None?
      ensures r.Some? && offset >= 1 && (snapshot.Some? ==> offset == snapshot.value.index + 1) ==>
                r.value == offset + |entries| - 1
    {
      if |entries| != 0 then Some(offset + |entries| - 1)
      else if snapshot.Some? then Some(snapshot.value.index)
      else None
    }

    /** The term at a position, if this part knows it. */
    function MaybeTerm(i: nat): (r: Option<nat>)
      requires snapshot.Some? ==> offset == snapshot.value.index + 1
      reads this
      ensures r.Some? ==> if i >= offset then i < offset + |entries| && r.value == entries[i - offset].term
                          else snapshot.Some? && i == snapshot.value.index && r.value == snapshot.value.term
      ensures r.None? ==> i >= offset + |entries| || (i < offset && (snapshot.None? || i != snapshot.value.index))
    {
      if i < offset then
        if snapshot.Some? && snapshot.value.index == i then Some(snapshot.value.term) else None
      else
        match MaybeLastIndex()
        case None => None
        case Some(last) => if i > last then None else Some(entries[i - offset].term)
    }

    /** Forget entries up to i if they are known to be in storage: the entry at i must still
        be the one of term t that was written. */
    method StableTo(i: nat, t: nat)
      requires snapshot.Some? ==> offset == snapshot.value.index + 1
      modifies this
      ensures snapshot == old(snapshot)
      ensures var hit := old(offset <= i < offset + |entries| && entries[i - offset].term == t);
              if hit then entries == old(entries[i + 1 - offset..]) && offset == i + 1
              else entries == old(entries) && offset == old(offset)
    {
      var gt := MaybeTerm(i);
      if gt.None? {
        return;
      }
      if gt.value == t && i >= offset {
        entries := entries[i + 1 - offset..];
        offset := i + 1;
      }
    }

    method StableSnapTo(i: nat)
      modifies this
      ensures entries == old(entries) && offset == old(offset)
      ensures snapshot == if old(snapshot.Some? && snapshot.value.index == i) then None else old(snapshot)
    {
      if snapshot.Some? && snapshot.value.index == i {
        snapshot := None;
      }
    }

    method Restore(s: Snapshot)
      modifies this
      ensures snapshot == Some(s) && entries == [] && offset == s.index + 1
    {
      offset := s.index + 1;
      entries := [];
      snapshot := Some(s);
    }

    /** On the one log that the tiers stand for, this is truncation after the entry before
        ents and then append, whichever of the three cases applies. */
    method TruncateAndAppend(ents: seq<Entry>, ghost st: seq<Entry>)
      requires Consistent(Over(st)) && ents != [] && ents[0].index >= 1 && Follow(ents[0].index - 1, ents)
      requires ViewOf(Over(st)).off <= ents[0].index - 1 <= LastIndex(ViewOf(Over(st)))
      modifies this
      ensures Consistent(Over(st)) && snapshot == old(snapshot)
      ensures ViewOf(Over(st)) == TruncateAppend(old(ViewOf(Over(st))), ents[0].index - 1, ents)
    {
      TruncatedView(Over(st), ents);
      var after := ents[0].index - 1;
      if after == offset + |entries| - 1 {
        entries := entries + ents;
      } else if after < offset {
        offset := after + 1;
        entries := ents;
      } else {
        entries := entries[..after + 1 - offset];
        entries := entries + ents;
      }
      assert Over(st) == TruncatedTiers(old(Over(st)), ents);
    }
  }
}
