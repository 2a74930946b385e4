/** The log of a raft node over its two tiers. Every operation is specified on the one log
    the tiers stand for. */
module RaftLogs {
  import opened Types
  import LV = LogView
  import opened TwoTier
  import opened Storage
  import opened UnstableLog
  import Spec = NodeSpec

  type View = LV.View
  type Limit = LV.Limit

  class RaftLog {
    const storage: MemoryStorage
    const unstable: Unstable
    var committed: nat
    var applied: nat

    ghost function Tiered(): Tiers
      reads storage, unstable
    {
      unstable.Over(storage.ents)
    }

    ghost predicate Valid()
      reads this, storage, unstable
    {
      && Consistent(Tiered())
      && ViewOf(Tiered()).off <= committed <= LV.LastIndex(ViewOf(Tiered()))
      && applied <= committed
    }

    ghost function Log(): View
      requires Valid()
      reads this, storage, unstable
    {
      ViewOf(Tiered())
    }

    /** Start from storage: nothing unstable, committed and applied up to the compaction. */
    constructor (storage: MemoryStorage)
      requires storage.Valid()
      ensures Valid() && this.storage == storage && fresh(unstable) && unstable.snapshot.None?
      ensures committed == applied == storage.ents[0].index
      ensures Log() == LV.View(storage.ents[0].index, storage.ents[0].term, storage.ents[1..])
    {
      this.storage := storage;
      this.unstable := new Unstable(storage.LastIndex() + 1);
      this.committed := storage.FirstIndex() - 1;
      this.applied := storage.FirstIndex() - 1;
    }

    function FirstIndex(): (i: nat)
      requires Valid()
      reads this, storage, unstable
      ensures i == LV.FirstIndex(Log())
    {
      match unstable.MaybeFirstIndex()
      case Some(i) => i
      case None => storage.FirstIndex()
    }

    function LastIndex(): (i: nat)
      requires Valid()
      reads this, storage, unstable
      ensures i == LV.LastIndex(Log())
    {
      ViewIndexed(Tiered());
      match unstable.MaybeLastIndex()
      case Some(i) => i
      case None => storage.LastIndex()
    }

    /** The lookup through both tiers never fails and finds the term in the one log. */
    function Term(i: nat): (r: Result<nat>)
      requires Valid()
      reads this, storage, unstable
      ensures r == Ok(LV.TermOf(Log(), i))
    {
      var dummyIndex := FirstIndex() - 1;
      if i < dummyIndex || i > LastIndex() then Ok(0)
      else
        ViewIndexed(Tiered());
        assert i > dummyIndex ==> EntryFound(i) by {
          if i > dummyIndex {
            EntryAt(Tiered(), i);
          }
        }
        match unstable.MaybeTerm(i)
        case Some(t) => Ok(t)
        case None => storage.Term(i)
    }

    ghost predicate EntryFound(i: nat)
      requires Valid() && LV.FirstIndex(Log()) <= i <= LV.LastIndex(Log())
      reads this, storage, unstable
    {
      var e := Log().ents[i - LV.FirstIndex(Log())];
      if i >= unstable.offset then i - unstable.offset < |unstable.entries| && e == unstable.entries[i - unstable.offset]
      else unstable.snapshot.None? && i - Base(storage.ents) < |storage.ents| && e == storage.ents[i - Base(storage.ents)]
    }

    function TermOrZero(i: nat): (t: nat)
      requires Valid()
      reads this, storage, unstable
      ensures t == LV.TermOf(Log(), i)
    {
      Term(i).value
    }

    function LastTerm(): (t: nat)
      requires Valid()
      reads this, storage, unstable
      ensures t == LV.LastTermOf(Log())
    {
      TermOrZero(LastIndex())
    }

    predicate MatchTerm(i: nat, term: nat)
      requires Valid()
      reads this, storage, unstable
      ensures MatchTerm(i, term) == LV.MatchTerm(Log(), i, term)
    {
      Term(i).value == term
    }

    predicate IsUpToDate(lasti: nat, term: nat)
      requires Valid()
      reads this, storage, unstable
      ensures IsUpToDate(lasti, term) == LV.IsUpToDate(Log(), lasti, term)
    {
      term > LastTerm() || (term == LastTerm() && lasti >= LastIndex())
    }

    method FindConflict(ents: seq<Entry>) returns (ci: nat)
      requires Valid()
      ensures ci == LV.FindConflict(Log(), ents)
    {
      for k := 0 to |ents|
        invariant LV.FindConflict(Log(), ents) == LV.FindConflict(Log(), ents[k..])
      {
        if !MatchTerm(ents[k].index, ents[k].term) {
          return ents[k].index;
        }
        assert ents[k..][1..] == ents[k + 1..];
      }
      return 0;
    }

    method CommitTo(tocommit: nat)
      requires Valid() && !Spec.CommitTo(Log(), committed, tocommit).LogPanic?
      modifies this`committed
      ensures Valid() && Log() == old(Log())
      ensures Spec.CommitTo(old(Log()), old(committed), tocommit) == Spec.Appended(Log(), committed)
    {
      if committed < tocommit {
        committed := tocommit;
      }
    }

    method AppliedTo(i: nat)
      requires Valid() && (i == 0 || applied <= i <= committed)
      modifies this`applied
      ensures Valid() && Log() == old(Log())
      ensures applied == if i == 0 then old(applied) else i
    {
      if i == 0 {
        return;
      }
      applied := i;
    }

    method Append(ents: seq<Entry>) returns (last: nat)
      requires Valid() && !Spec.Append(Log(), committed, ents).LogPanic?
      requires ents != [] ==> ents[0].index >= 1 && LV.Follow(ents[0].index - 1, ents)
      modifies unstable
      ensures Valid() && last == LV.LastIndex(Log()) && unstable.snapshot == old(unstable.snapshot)
      ensures Spec.Append(old(Log()), committed, ents) == Spec.Appended(Log(), committed)
    {
      if |ents| == 0 {
        last := LastIndex();
        return;
      }
      ViewIndexed(Tiered());
      unstable.TruncateAndAppend(ents, storage.ents);
      last := LastIndex();
    }

    /** Whether the entries were taken, and up to where; the source panics exactly where the
        specification does. */
    method MaybeAppend(index: nat, logTerm: nat, c: nat, ents: seq<Entry>) returns (lastnewi: nat, ok: bool)
      requires Valid() && LV.Follow(index, ents)
      requires !Spec.MaybeAppend(Log(), committed, index, logTerm, c, ents).LogPanic?
      modifies this`committed, unstable
      ensures Valid() && unstable.snapshot == old(unstable.snapshot)
      ensures var o := Spec.MaybeAppend(old(Log()), old(committed), index, logTerm, c, ents);
              if ok then o == Spec.Appended(Log(), committed) && lastnewi == index + |ents|
              else o == Spec.Rejected && lastnewi == 0 && Log() == old(Log()) && committed == old(committed)
    {
      hide ViewOf, Consistent, LV.FindConflict, LV.TermOf, Spec.Append, Spec.CommitTo;
      lastnewi := index + |ents|;
      if MatchTerm(index, logTerm) {
        var ci := FindConflict(ents);
        if ci != 0 {
          var offset := index + 1;
          LV.FollowRest(index, ents, ci - offset);
          var _ := Append(ents[ci - offset..]);
        }
        CommitTo(Min(c, lastnewi));
        ok := true;
      } else {
        return 0, false;
      }
    }

    method MaybeCommit(maxIndex: nat, term: nat) returns (ok: bool)
      requires Valid() && (maxIndex > committed && LV.TermOf(Log(), maxIndex) == term ==> maxIndex <= LV.LastIndex(Log()))
      modifies this`committed
      ensures Valid() && Log() == old(Log())
      ensures ok == (maxIndex > old(committed) && LV.TermOf(Log(), maxIndex) == term)
      ensures committed == if ok then maxIndex else old(committed)
    {
      if maxIndex > committed && TermOrZero(maxIndex) == term {
        CommitTo(maxIndex);
        return true;
      }
      return false;
    }

    /** Replace the log by a snapshot beyond what is committed. */
    method Restore(s: Snapshot)
      requires Valid() && s.index > committed
      modifies this`committed, unstable
      ensures Valid() && committed == s.index && Log() == LV.View(s.index, s.term, [])
      ensures unstable.snapshot == Some(s)
    {
      committed := s.index;
      unstable.Restore(s);
    }

    // ------------------------------------------------------------ reading entries

    /** The entries from lo up to hi, cut at the limit, read from whichever tiers hold them. */
    method Slice(lo: nat, hi: nat, limit: Limit) returns (r: Result<seq<Entry>>)
      requires Valid() && lo <= hi <= LV.LastIndex(Log()) + 1
      ensures lo < LV.FirstIndex(Log()) ==> r == Err(ErrCompacted)
      ensures lo >= LV.FirstIndex(Log()) ==> r == Ok(LV.LimitSize(LV.Slice(Log(), lo, hi), limit))
    {
      hide ViewOf, Consistent, LV.LimitSize, LV.Slice;
      if lo < FirstIndex() {
        return Err(ErrCompacted);
      }
      if lo == hi {
        EmptySlice(Log(), lo, limit);
        return Ok([]);
      }
      var offset := unstable.offset;
      if lo < offset {
        var mid := Min(hi, offset);
        SliceOfTiers(Tiered(), lo, mid, hi, limit);
        var stored := storage.Entries(lo, mid, limit);
        if |stored.value| < mid - lo {
          return stored;
        }
        var ents := stored.value;
        if hi > offset {
          ents := ents + unstable.entries[..hi - offset];
        }
        var limited := LimitEntries(ents, limit);
        return Ok(limited);
      }
      UnstableSlice(Tiered(), lo, hi);
      var rest := LimitEntries(unstable.entries[lo - offset..hi - offset], limit);
      return Ok(rest);
    }

    method Entries(i: nat, limit: Limit) returns (r: Result<seq<Entry>>)
      requires Valid()
      ensures i > LV.LastIndex(Log()) ==> r == Ok([])
      ensures i <= LV.LastIndex(Log()) && i < LV.FirstIndex(Log()) ==> r == Err(ErrCompacted)
      ensures i <= LV.LastIndex(Log()) && i >= LV.FirstIndex(Log()) ==>
                r == Ok(LV.LimitSize(LV.Slice(Log(), i, LV.LastIndex(Log()) + 1), limit))
    {
      if i > LastIndex() {
        return Ok([]);
      }
      r := Slice(i, LastIndex() + 1, limit);
    }

    /** What is committed and not yet applied, skipping what a snapshot covers. */
    method NextEnts() returns (ents: seq<Entry>)
      requires Valid()
      ensures var lo := Max(applied + 1, LV.FirstIndex(Log()));
              ents == if committed + 1 > lo then LV.Slice(Log(), lo, committed + 1) else []
    {
      hide ViewOf, Consistent;
      var lo := Max(applied + 1, FirstIndex());
      if committed + 1 > lo {
        var r := Slice(lo, committed + 1, LV.NoLimit);
        NoLimitKeeps(LV.Slice(Log(), lo, committed + 1), 0);
        return r.value;
      }
      return [];
    }

    function LatestSnapshot(): Snapshot
      reads storage, unstable
    {
      if unstable.snapshot.Some? then unstable.snapshot.value else storage.snapshot
    }

    // ------------------------------------------------------------ after the application has written

    /** Entries up to i have been written. If the entry at i is still the one of term t, they
        are trimmed and the log stays what it was. */
    method StableTo(i: nat, t: nat)
      requires Valid() && unstable.snapshot.None?
      requires Holds(Tiered(), i, t) ==> Written(Tiered(), i)
      modifies unstable
      ensures Valid() && Log() == old(Log()) && unstable.snapshot.None?
    {
      if Holds(Tiered(), i, t) {
        TrimmedView(Tiered(), i);
      }
      unstable.StableTo(i, t);
    }

    /** The application has written what the last batch contained: entries up to the one at i
        of term t if `have`, and the snapshot at snapi if there was one. */
    method Forget(have: bool, i: nat, t: nat, snapi: nat)
      requires Valid() && SafeToForget(Tiered(), have && Holds(Tiered(), i, t), i, snapi)
      modifies unstable
      ensures Valid() && Log() == old(Log())
      ensures unstable.snapshot == if old(SnapshotAt(Tiered(), snapi)) then None else old(unstable.snapshot)
      ensures Tiered() == old(Forgotten(Tiered(), have && Holds(Tiered(), i, t), i, snapi))
    {
      ForgottenView(Tiered(), have && Holds(Tiered(), i, t), i, snapi);
      if have {
        unstable.StableTo(i, t);
      }
      unstable.StableSnapTo(snapi);
      assert Tiered() == old(Forgotten(Tiered(), have && Holds(Tiered(), i, t), i, snapi));
    }
  }

  lemma StoredSlice(t: Tiers, lo: nat, hi: nat)
    requires Consistent(t) && LV.FirstIndex(ViewOf(t)) <= lo < hi <= t.offset && hi <= LV.LastIndex(ViewOf(t)) + 1
    ensures StorageOK(t.st) && t.snap.None? && lo > Base(t.st) && hi <= StoredLast(t.st) + 1 && |t.st| > 1
    ensures LV.Slice(ViewOf(t), lo, hi) == t.st[lo - Base(t.st)..hi - Base(t.st)]
  {
    EntryAt(t, lo);
  }

  lemma EmptySlice(v: View, lo: nat, limit: Limit)
    requires LV.FirstIndex(v) <= lo <= LV.LastIndex(v) + 1
    ensures LV.LimitSize(LV.Slice(v, lo, lo), limit) == []
  {
  }

  /** Reading the stored part first: if the limit already cuts it, that is the answer;
      otherwise it is read whole, and the unstable part is added behind it. */
  lemma SliceOfTiers(t: Tiers, lo: nat, mid: nat, hi: nat, limit: Limit)
    requires Consistent(t) && LV.FirstIndex(ViewOf(t)) <= lo < hi <= LV.LastIndex(ViewOf(t)) + 1
    requires lo < t.offset && mid == Min(hi, t.offset)
    ensures StorageOK(t.st) && t.snap.None? && lo > Base(t.st) && mid <= StoredLast(t.st) + 1 && |t.st| > 1
    ensures hi > t.offset ==> hi - t.offset <= |t.entries|
    ensures var a := t.st[lo - Base(t.st)..mid - Base(t.st)];
            && |a| == mid - lo
            && (|LV.LimitSize(a, limit)| < mid - lo ==>
                  LV.LimitSize(LV.Slice(ViewOf(t), lo, hi), limit) == LV.LimitSize(a, limit))
            && (|LV.LimitSize(a, limit)| >= mid - lo ==>
                  && LV.LimitSize(a, limit) == a
                  && LV.Slice(ViewOf(t), lo, hi) == if hi > t.offset then a + t.entries[..hi - t.offset] else a)
  {
    hide ViewOf, Consistent;
    ViewIndexed(t);
    StoredSlice(t, lo, mid);
    var v := ViewOf(t);
    var a, b := LV.Slice(v, lo, mid), LV.Slice(v, mid, hi);
    assert LV.Slice(v, lo, hi) == a + b;
    if |LV.LimitSize(a, limit)| < |a| {
      LimitAcross(a, b, limit);
    }
    if hi > t.offset {
      UnstableSlice(t, mid, hi);
    }
  }

  lemma UnstableSlice(t: Tiers, lo: nat, hi: nat)
    requires Consistent(t) && LV.FirstIndex(ViewOf(t)) <= lo <= hi <= LV.LastIndex(ViewOf(t)) + 1 && t.offset <= lo
    ensures hi <= t.offset + |t.entries|
    ensures LV.Slice(ViewOf(t), lo, hi) == t.entries[lo - t.offset..hi - t.offset]
  {
    ViewIndexed(t);
    var a, b := LV.Slice(ViewOf(t), lo, hi), t.entries[lo - t.offset..hi - t.offset];
    forall k | 0 <= k < |a| ensures a[k] == b[k] {
      EntryAt(t, lo + k);
    }
  }

  lemma NoLimitKeeps(ents: seq<Entry>, n: nat)
    requires n <= |ents|
    ensures LV.Fitting(ents, LV.NoLimit, n) == |ents|
    decreases |ents| - n
  {
    if n < |ents| {
      NoLimitKeeps(ents, n + 1);
    }
  }
}
