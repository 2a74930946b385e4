/** Stable storage kept in memory. The first stored entry is a dummy at the last compacted
    position. */
module Storage {
  import opened Types
  import opened LogView
  import opened TwoTier

  datatype HardState = HardState(term: nat, vote: NodeId, commit: nat)

  const EmptyState := HardState(0, 0, 0)

  datatype StorageError = ErrCompacted | ErrUnavailable | ErrSnapOutOfDate

  datatype Result<+T> = Ok(value: T) | Err(error: StorageError)

  /** Keep entries while they stay within the limit, but at least one. */
  method LimitEntries(ents: seq<Entry>, limit: Limit) returns (r: seq<Entry>)
    ensures r == LimitSize(ents, limit)
  {
    if |ents| == 0 {
      return ents;
    }
    var size := EntrySize(ents[0]);
    var n := 1;
    assert ents[..1][..0] == [];
    while n < |ents|
      invariant 1 <= n <= |ents|
      invariant size == TotalSize(ents[..n])
      invariant n == 1 || !Exceeds(size, limit)
    {
      assert ents[..n + 1][..n] == ents[..n];
      size := size + EntrySize(ents[n]);
      if Exceeds(size, limit) {
        LimitSizeIsLongest(ents, limit, n);
        return ents[..n];
      }
      n := n + 1;
    }
    LimitSizeIsLongest(ents, limit, n);
    return ents[..n];
  }

  class MemoryStorage {
    var hardState: HardState
    var snapshot: Snapshot
    var ents: seq<Entry>

    ghost predicate Valid()
      reads this
    {
      StorageOK(ents)
    }

    constructor ()
      ensures Valid() && hardState == EmptyState && snapshot == NoSnapshot
      ensures ents == [Entry(0, 0, Nil)]
    {
      hardState := EmptyState;
      snapshot := NoSnapshot;
      ents := [Entry(0, 0, Nil)];
    }

    method SetHardState(st: HardState)
      modifies this
      ensures hardState == st && snapshot == old(snapshot) && ents == old(ents)
    {
      hardState := st;
    }

    function FirstIndex(): nat
      requires Valid()
      reads this
    {
      ents[0].index + 1
    }

    function LastIndex(): nat
      requires Valid()
      reads this
    {
      ents[0].index + |ents| - 1
    }

    function Term(i: nat): Result<nat>
      requires Valid() && i <= LastIndex()
      reads this
    {
      var offset := ents[0].index;
      if i < offset then Err(ErrCompacted) else Ok(ents[i - offset].term)
    }

    /** The stored entries at positions lo up to hi, cut at the limit. The source panics if
        hi lies beyond the end. */
    method Entries(lo: nat, hi: nat, limit: Limit) returns (r: Result<seq<Entry>>)
      requires Valid() && lo <= hi <= LastIndex() + 1
      ensures lo <= ents[0].index ==> r == Err(ErrCompacted)
      ensures lo > ents[0].index && |ents| == 1 ==> r == Err(ErrUnavailable)
      ensures lo > ents[0].index && |ents| > 1 ==>
                r == Ok(LimitSize(ents[lo - ents[0].index..hi - ents[0].index], limit))
    {
      var offset := ents[0].index;
      if lo <= offset {
        return Err(ErrCompacted);
      }
      if |ents| == 1 {
        return Err(ErrUnavailable);
      }
      var limited := LimitEntries(ents[lo - offset..hi - offset], limit);
      return Ok(limited);
    }

    method ApplySnapshot(snap: Snapshot)
      modifies this
      ensures Valid() && snapshot == snap && hardState == old(hardState)
      ensures ents == [Entry(snap.term, snap.index, Nil)]
    {
      snapshot := snap;
      ents := [Entry(snap.term, snap.index, Nil)];
    }

    /** Record a snapshot at position i, which storage must still hold. */
    method CreateSnapshot(i: nat, nodes: Option<set<NodeId>>) returns (r: Result<Snapshot>)
      requires Valid() && (i > snapshot.index ==> ents[0].index <= i <= LastIndex())
      modifies this
      ensures ents == old(ents) && hardState == old(hardState)
      ensures i <= old(snapshot.index) ==> r == Err(ErrSnapOutOfDate) && snapshot == old(snapshot)
      ensures i > old(snapshot.index) ==>
                && r == Ok(snapshot)
                && snapshot.index == i && snapshot.term == StoredAt(ents, i).term
                && snapshot.nodes == if nodes.Some? then nodes.value else old(snapshot.nodes)
    {
      if i <= snapshot.index {
        return Err(ErrSnapOutOfDate);
      }
      var offset := ents[0].index;
      snapshot := snapshot.(index := i, term := ents[i - offset].term);
      if nodes.Some? {
        snapshot := snapshot.(nodes := nodes.value);
      }
      return Ok(snapshot);
    }

    /** Drop everything before position i, whose term stays behind in the dummy. */
    method Compact(i: nat) returns (r: Result<()>)
      requires Valid() && i <= LastIndex()
      modifies this
      ensures Valid() && snapshot == old(snapshot) && hardState == old(hardState)
      ensures if i <= old(ents[0].index) then r == Err(ErrCompacted) && ents == old(ents)
              else r == Ok(()) && ents == StoreCompact(old(ents), i)
    {
      var offset := ents[0].index;
      if i <= offset {
        return Err(ErrCompacted);
      }
      var k := i - offset;
      var kept := [Entry(ents[k].term, ents[k].index, Nil)];
      kept := kept + ents[k + 1..];
      ents := kept;
      return Ok(());
    }

    /** Write entries, replacing everything from their first position on. They must leave no
        gap behind the stored ones. */
    method Append(entries: seq<Entry>)
      requires Valid()
      requires entries != [] ==> 1 <= entries[0].index <= LastIndex() + 1 && Follow(entries[0].index - 1, entries)
      modifies this
      ensures Valid() && snapshot == old(snapshot) && hardState == old(hardState)
      ensures ents == if entries == [] then old(ents) else StoreAppend(old(ents), entries)
    {
      if |entries| == 0 {
        return;
      }
      StoreAppendOK(ents, entries);
      var first := ents[0].index + 1;
      var last := entries[0].index + |entries| - 1;
      if last < first {
        return;
      }
      var es := entries;
      if first > es[0].index {
        es := es[first - es[0].index..];
      }
      var offset := es[0].index - ents[0].index;
      if |ents| > offset {
        ents := ents[..offset];
        ents := ents + es;
      } else {
        assert ents[..offset] == ents;
        ents := ents + es;
      }
    }
  }
}
