/** The log is kept in two tiers: stable storage, which begins with a dummy entry at the
    last compacted position, and an unstable part holding entries (and possibly a whole
    snapshot) not yet written. This module says which single log the two tiers stand for,
    and how writing, compacting and trimming them changes it, or leaves it alone. */
module TwoTier {
  import opened Types
  import opened LogView

  datatype Tiers = Tiers(st: seq<Entry>, snap: Option<Snapshot>, entries: seq<Entry>, offset: nat)

  /** Positions in storage are consecutive; there is always the dummy. */
  ghost predicate StorageOK(st: seq<Entry>) {
    |st| >= 1 && forall k | 0 <= k < |st| :: st[k].index == st[0].index + k
  }

  function Base(st: seq<Entry>): nat
    requires |st| >= 1
  {
    st[0].index
  }

  function StoredLast(st: seq<Entry>): nat
    requires |st| >= 1
  {
    st[0].index + |st| - 1
  }

  /** The stored entry at a position. */
  function StoredAt(st: seq<Entry>, p: nat): Entry
    requires |st| >= 1 && Base(st) <= p <= StoredLast(st)
  {
    st[p - Base(st)]
  }

  ghost predicate Consistent(t: Tiers) {
    && StorageOK(t.st)
    && t.offset >= 1
    && Follow(t.offset - 1, t.entries)
    && match t.snap
       case Some(s) => t.offset == s.index + 1
       case None =>
         var off := Base(t.st);
         && (off >= t.offset ==> off - t.offset < |t.entries| && t.entries[off - t.offset].term == t.st[0].term)
         && (off < t.offset ==> t.offset <= StoredLast(t.st) + 1)
         && (t.entries == [] ==> StoredLast(t.st) == t.offset - 1)
  }

  /** The one log the tiers stand for. Storage supplies what lies below the unstable
      offset; a pending snapshot hides storage altogether. */
  ghost function ViewOf(t: Tiers): View
    requires Consistent(t)
  {
    match t.snap
    case Some(s) => View(s.index, s.term, t.entries)
    case None =>
      var off := Base(t.st);
      View(off, t.st[0].term,
           if off < t.offset then t.st[1..t.offset - off] + t.entries else t.entries[off + 1 - t.offset..])
  }

  lemma ViewIndexed(t: Tiers)
    requires Consistent(t)
    ensures Indexed(ViewOf(t))
    ensures LastIndex(ViewOf(t)) == t.offset + |t.entries| - 1
  {
  }

  /** Where the entry at position i is found. */
  lemma EntryAt(t: Tiers, i: nat)
    requires Consistent(t)
    requires FirstIndex(ViewOf(t)) <= i <= LastIndex(ViewOf(t))
    ensures var e := ViewOf(t).ents[i - FirstIndex(ViewOf(t))];
            if i >= t.offset then i - t.offset < |t.entries| && e == t.entries[i - t.offset]
            else t.snap.None? && i - Base(t.st) < |t.st| && e == t.st[i - Base(t.st)]
  {
    ViewIndexed(t);
  }

  // ---------------------------------------------------------------- changing the unstable tier

  /** The three ways of taking entries into the unstable part. */
  function TruncatedTiers(t: Tiers, ents: seq<Entry>): Tiers
    requires ents != [] && 1 <= t.offset && 1 <= ents[0].index <= t.offset + |t.entries|
  {
    var after := ents[0].index - 1;
    if after == t.offset + |t.entries| - 1 then t.(entries := t.entries + ents)
    else if after < t.offset then t.(offset := after + 1, entries := ents)
    else t.(entries := t.entries[..after + 1 - t.offset] + ents)
  }

  /** Each of them is truncation and append on the one log, also when it cuts below the
      part that storage already holds. */
  lemma TruncatedView(t: Tiers, ents: seq<Entry>)
    requires Consistent(t) && ents != [] && ents[0].index >= 1
    requires ViewOf(t).off <= ents[0].index - 1 <= LastIndex(ViewOf(t)) && Follow(ents[0].index - 1, ents)
    ensures ents[0].index <= t.offset + |t.entries|
    ensures Consistent(TruncatedTiers(t, ents))
    ensures ViewOf(TruncatedTiers(t, ents)) == TruncateAppend(ViewOf(t), ents[0].index - 1, ents)
  {
    hide Consistent, ViewOf, TruncatedTiers, TruncateAppend;
    ViewIndexed(t);
    if t.snap.None? && t.offset <= ViewOf(t).off {
      BaseIs(t);
      TruncatedOverCompacted(t, ents);
    } else if t.snap.Some? {
      TruncatedOverSnapshot(t, ents);
    } else {
      BaseIs(t);
      TruncatedOverStorage(t, ents);
    }
  }

  lemma BaseIs(t: Tiers)
    requires Consistent(t) && t.snap.None?
    ensures |t.st| >= 1 && ViewOf(t).off == Base(t.st)
  {
  }

  lemma TruncatedOverSnapshot(t: Tiers, ents: seq<Entry>)
    requires Consistent(t) && ents != [] && ents[0].index >= 1 && t.snap.Some?
    requires ViewOf(t).off <= ents[0].index - 1 <= LastIndex(ViewOf(t)) && Follow(ents[0].index - 1, ents)
    ensures ents[0].index <= t.offset + |t.entries|
    ensures Consistent(TruncatedTiers(t, ents))
    ensures ViewOf(TruncatedTiers(t, ents)) == TruncateAppend(ViewOf(t), ents[0].index - 1, ents)
  {
    var after := ents[0].index - 1;
    assert t.entries[..after + 1 - t.offset] + ents == ViewOf(t).ents[..after - ViewOf(t).off] + ents;
    if after == t.offset + |t.entries| - 1 {
      assert t.entries[..after + 1 - t.offset] == t.entries;
    }
  }

  lemma TruncatedOverStorage(t: Tiers, ents: seq<Entry>)
    requires Consistent(t) && ents != [] && ents[0].index >= 1
    requires t.snap.None? && Base(t.st) < t.offset
    requires ViewOf(t).off <= ents[0].index - 1 <= LastIndex(ViewOf(t)) && Follow(ents[0].index - 1, ents)
    ensures ents[0].index <= t.offset + |t.entries|
    ensures Consistent(TruncatedTiers(t, ents))
    ensures ViewOf(TruncatedTiers(t, ents)) == TruncateAppend(ViewOf(t), ents[0].index - 1, ents)
  {
    ViewIndexed(t);
    var after := ents[0].index - 1;
    var off := Base(t.st);
    var s := t.st[1..t.offset - off];
    TakeJoin(s, t.entries, after - off, ents);
    TruncatedConsistent(t, ents);
    hide Consistent, Follow;
    if after < t.offset && after != t.offset + |t.entries| - 1 {
      assert s[..after - off] == t.st[1..after + 1 - off];
    }
  }

  lemma TruncatedConsistent(t: Tiers, ents: seq<Entry>)
    requires Consistent(t) && ents != [] && ents[0].index >= 1
    requires t.snap.None? && Base(t.st) < t.offset
    requires Base(t.st) <= ents[0].index - 1 < t.offset + |t.entries| && Follow(ents[0].index - 1, ents)
    ensures Consistent(TruncatedTiers(t, ents))
  {
  }

  lemma TakeJoin<T>(a: seq<T>, b: seq<T>, n: nat, c: seq<T>)
    requires n <= |a| + |b|
    ensures n <= |a| ==> (a + b)[..n] == a[..n]
    ensures n >= |a| ==> (a + b)[..n] + c == a + (b[..n - |a|] + c)
    ensures b[..|b|] == b
  {
  }

  /** When storage has been compacted into the region of the unstable entries. */
  lemma TruncatedOverCompacted(t: Tiers, ents: seq<Entry>)
    requires Consistent(t) && ents != [] && ents[0].index >= 1
    requires t.snap.None? && t.offset <= Base(t.st)
    requires ViewOf(t).off <= ents[0].index - 1 <= LastIndex(ViewOf(t)) && Follow(ents[0].index - 1, ents)
    ensures ents[0].index <= t.offset + |t.entries|
    ensures Consistent(TruncatedTiers(t, ents))
    ensures ViewOf(TruncatedTiers(t, ents)) == TruncateAppend(ViewOf(t), ents[0].index - 1, ents)
  {
    ViewIndexed(t);
    var after := ents[0].index - 1;
    var t' := TruncatedTiers(t, ents);
    var v := ViewOf(t);
    assert after >= v.off >= t.offset;
    assert t'.offset == t.offset;
    assert t'.entries[v.off - t.offset] == t.entries[v.off - t.offset];
    assert t'.entries == t.entries[..after + 1 - t.offset] + ents;
    assert t'.entries[v.off + 1 - t.offset..] == t.entries[v.off + 1 - t.offset..][..after - v.off] + ents;
  }

  /** Storage holds everything the unstable part has, through position i. */
  ghost predicate Written(t: Tiers, i: nat)
    requires StorageOK(t.st)
  {
    && t.offset <= i < t.offset + |t.entries|
    && Base(t.st) <= i <= StoredLast(t.st)
    && (forall p | t.offset <= p <= i && Base(t.st) < p :: StoredAt(t.st, p) == t.entries[p - t.offset])
    && (i == t.offset + |t.entries| - 1 ==> StoredLast(t.st) == i)
  }

  function TrimmedTiers(t: Tiers, i: nat): Tiers
    requires t.offset <= i < t.offset + |t.entries|
  {
    t.(entries := t.entries[i + 1 - t.offset..], offset := i + 1)
  }

  /** Trimming what has been written changes nothing. */
  lemma TrimmedView(t: Tiers, i: nat)
    requires Consistent(t) && t.snap.None? && Written(t, i)
    ensures Consistent(TrimmedTiers(t, i)) && ViewOf(TrimmedTiers(t, i)) == ViewOf(t)
  {
    ViewIndexed(t);
    var t' := TrimmedTiers(t, i);
    var off := Base(t.st);
    var v, v' := ViewOf(t), ViewOf(t');
    ViewIndexed(t');
    assert |v.ents| == |v'.ents|;
    forall k | 0 <= k < |v.ents| ensures v.ents[k] == v'.ents[k] {
      var p := off + 1 + k;
      EntryAt(t, p);
      EntryAt(t', p);
      if t.offset <= p <= i {
        assert StoredAt(t.st, p) == t.entries[p - t.offset];
      }
    }
  }

  /** Writing a pending snapshot to storage, and the entries behind it, then trimming both,
      changes nothing. */
  lemma SavedSnapshotView(t: Tiers, s: Snapshot, i: nat)
    requires Consistent(t) && t.snap == Some(s)
    requires Base(t.st) == s.index && t.st[0].term == s.term
    requires t.entries == [] ==> StoredLast(t.st) == s.index
    ensures Consistent(t.(snap := None)) && ViewOf(t.(snap := None)) == ViewOf(t)
  {
    assert t.st[1..1] == [];
  }

  // ---------------------------------------------------------------- changing storage

  /** The unstable part still holds the entry at i that was written, of term t. */
  predicate Holds(t: Tiers, i: nat, term: nat) {
    t.offset <= i < t.offset + |t.entries| && t.entries[i - t.offset].term == term
  }

  predicate SnapshotAt(t: Tiers, snapi: nat) {
    t.snap.Some? && t.snap.value.index == snapi
  }

  /** What must be in storage before entries up to i (if hit) and the snapshot at snapi may be
      forgotten. A snapshot that arrived in the meantime must have taken the entries along. */
  ghost predicate SafeToForget(t: Tiers, hit: bool, i: nat, snapi: nat)
    requires Consistent(t)
  {
    && (hit ==> Written(t, i) && (t.snap.Some? ==> SnapshotAt(t, snapi)))
    && (SnapshotAt(t, snapi) ==>
          && Base(t.st) == snapi && t.st[0].term == t.snap.value.term
          && (t.entries == [] ==> StoredLast(t.st) == snapi))
  }

  function Forgotten(t: Tiers, hit: bool, i: nat, snapi: nat): Tiers
    requires hit ==> t.offset <= i < t.offset + |t.entries|
  {
    var t1 := if hit then TrimmedTiers(t, i) else t;
    if SnapshotAt(t, snapi) then t1.(snap := None) else t1
  }

  /** Forgetting what has been written changes nothing. */
  lemma ForgottenView(t: Tiers, hit: bool, i: nat, snapi: nat)
    requires Consistent(t) && SafeToForget(t, hit, i, snapi)
    ensures Consistent(Forgotten(t, hit, i, snapi)) && ViewOf(Forgotten(t, hit, i, snapi)) == ViewOf(t)
  {
    hide Consistent, ViewOf;
    if SnapshotAt(t, snapi) {
      SavedSnapshotView(t, t.snap.value, i);
      if hit {
        TrimmedView(t.(snap := None), i);
      }
    } else if hit {
      TrimmedView(t, i);
    }
  }

  function At(v: View, p: nat): Entry
    requires v.off < p <= LastIndex(v)
  {
    v.ents[p - v.off - 1]
  }

  /** Storage ends at i and holds the log v up to there. */
  ghost predicate Stored(st: seq<Entry>, v: View, i: nat) {
    && StorageOK(st) && v.off <= Base(st) <= i && StoredLast(st) == i <= LastIndex(v)
    && forall p | Base(st) < p <= i :: StoredAt(st, p) == At(v, p)
  }

  ghost predicate SameThrough(v: View, v': View, i: nat) {
    forall p | Max(v.off, v'.off) < p <= i && p <= LastIndex(v) && p <= LastIndex(v') :: At(v, p) == At(v', p)
  }

  /** Comparing one term is enough: if the log v was written, and the log as it is now agrees
      with v up to the position whose term still matches, then what the unstable part holds
      there has been written. */
  lemma StillWritten(t: Tiers, v: View, i: nat, term: nat)
    requires Consistent(t) && t.snap.None? && Stored(t.st, v, i) && Holds(t, i, term)
    requires SameThrough(v, ViewOf(t), i)
    ensures Written(t, i)
  {
    ViewIndexed(t);
    forall p | t.offset <= p <= i && Base(t.st) < p ensures StoredAt(t.st, p) == t.entries[p - t.offset] {
      EntryAt(t, p);
      assert At(v, p) == At(ViewOf(t), p);
    }
  }

  /** What storage becomes when entries are written: everything from their first position
      on is replaced, and positions already compacted are skipped. */
  function StoreAppend(st: seq<Entry>, es: seq<Entry>): seq<Entry>
    requires |st| >= 1 && es != [] && 1 <= es[0].index <= StoredLast(st) + 1 && Follow(es[0].index - 1, es)
  {
    if es[0].index + |es| - 1 < Base(st) + 1 then st
    else
      var rest := if Base(st) + 1 > es[0].index then es[Base(st) + 1 - es[0].index..] else es;
      st[..rest[0].index - Base(st)] + rest
  }

  lemma StoreAppendOK(st: seq<Entry>, es: seq<Entry>)
    requires StorageOK(st) && es != [] && es[0].index <= StoredLast(st) + 1
    requires es[0].index >= 1 && Follow(es[0].index - 1, es)
    ensures var st' := StoreAppend(st, es);
            && StorageOK(st') && st'[0] == st[0]
            && (Base(st) < es[0].index + |es| - 1 ==> StoredLast(st') == es[0].index + |es| - 1)
            && es[0].index <= StoredLast(st') + 1
            && (forall p | Base(st) < p < es[0].index :: StoredAt(st', p) == StoredAt(st, p))
            && (Base(st) < es[0].index + |es| - 1 ==>
                  forall p | Base(st) < p && es[0].index <= p < es[0].index + |es| :: StoredAt(st', p) == es[p - es[0].index])
  {
  }

  /** Writing entries at or above the unstable offset does not change the log. */
  lemma StoreAppendView(t: Tiers, es: seq<Entry>)
    requires Consistent(t) && es != [] && t.offset <= es[0].index <= StoredLast(t.st) + 1
    requires Follow(es[0].index - 1, es)
    requires t.snap.None? ==> t.entries != []
    ensures Consistent(t.(st := StoreAppend(t.st, es))) && ViewOf(t.(st := StoreAppend(t.st, es))) == ViewOf(t)
  {
    StoreAppendOK(t.st, es);
    var t' := t.(st := StoreAppend(t.st, es));
    if t.snap.None? && Base(t.st) < t.offset {
      assert t'.st[1..t.offset - Base(t.st)] == t.st[1..t.offset - Base(t.st)];
    }
  }

  /** The same entries that the unstable part holds, once written, count as written. */
  lemma StoreAppendWrites(t: Tiers, es: seq<Entry>, i: nat)
    requires Consistent(t) && t.snap.None? && es != [] && es[0].index >= 1 && Follow(es[0].index - 1, es)
    requires es == t.entries && es[0].index <= StoredLast(t.st) + 1
    requires i == t.offset + |t.entries| - 1 && Base(t.st) < i
    ensures Consistent(t.(st := StoreAppend(t.st, es))) && Written(t.(st := StoreAppend(t.st, es)), i)
  {
    StoreAppendOK(t.st, es);
    StoreAppendView(t, es);
    assert es[0].index == t.offset;
  }

  /** Storage once it has taken the pending snapshot, if any, and the unstable entries. */
  ghost function SavedStore(t: Tiers): seq<Entry>
    requires Savable(t)
  {
    var st := SnapStore(t);
    if t.entries == [] then st else StoreAppend(st, t.entries)
  }

  function SnapStore(t: Tiers): seq<Entry> {
    match t.snap
    case Some(s) => [Entry(s.term, s.index, Nil)]
    case None => t.st
  }

  /** Storage has not been compacted beyond what was written to it. */
  ghost predicate Savable(t: Tiers) {
    Consistent(t) && (t.snap.None? ==> Base(t.st) < t.offset)
  }

  /** Once it is saved, what was unstable may all be forgotten, and the log is the same. */
  lemma SavedTiers(t: Tiers, i: nat, snapi: nat)
    requires Savable(t) && (t.snap.Some? ==> SnapshotAt(t, snapi)) && (t.entries != [] ==> i == t.offset + |t.entries| - 1)
    ensures var t' := t.(st := SavedStore(t));
            Consistent(t') && ViewOf(t') == ViewOf(t) && SafeToForget(t', t.entries != [], i, snapi)
  {
    if t.entries == [] {
      SnapSaved(t);
    } else if t.snap.None? {
      hide ViewOf, Written, StoreAppend;
      StoreAppendView(t, t.entries);
      StoreAppendWrites(t, t.entries, i);
    } else {
      EntriesOverSnap(t, i);
    }
  }

  lemma SnapSaved(t: Tiers)
    requires Consistent(t)
    ensures var t' := t.(st := SnapStore(t));
            Consistent(t') && ViewOf(t') == ViewOf(t) && (t.snap.Some? ==> Consistent(t'.(snap := None)))
  {
    if t.snap.Some? {
      SavedSnapshotView(t.(st := SnapStore(t)), t.snap.value, 0);
    }
  }

  lemma EntriesOverSnap(t: Tiers, i: nat)
    requires Consistent(t) && t.snap.Some? && t.entries != [] && i == t.offset + |t.entries| - 1
    ensures var t' := t.(st := SavedStore(t));
            Consistent(t') && ViewOf(t') == ViewOf(t) && Written(t', i) && t'.st[0] == SnapStore(t)[0]
  {
    var t1 := t.(st := SnapStore(t), snap := None);
    SnapSaved(t);
    StoreAppendOK(t1.st, t.entries);
    StoreAppendWrites(t1, t.entries, i);
    hide StoreAppend;
  }

  /** Storage then ends where the log did, and holds it as far back as it reaches. */
  lemma SavedIsStored(t: Tiers, k: nat)
    requires Savable(t) && t.snap.None? && t.entries != [] && k == t.offset + |t.entries| - 1
    ensures Stored(SavedStore(t), ViewOf(t), k) && TermOf(ViewOf(t), k) == t.entries[|t.entries| - 1].term
  {
    var st := SavedStore(t);
    StoreAppendOK(t.st, t.entries);
    ViewIndexed(t);
    EntryAt(t, k);
    forall p | Base(st) < p <= k ensures StoredAt(st, p) == At(ViewOf(t), p) {
      EntryAt(t, p);
    }
  }

  /** With nothing unstable left, storage alone is the log. */
  lemma AllStored(t: Tiers)
    requires Consistent(t) && t.snap.None? && t.entries == []
    ensures |t.st| >= 1 && ViewOf(t) == View(Base(t.st), t.st[0].term, t.st[1..])
  {
    assert t.st[1..] + t.entries == t.st[1..];
  }

  function Compacted(v: View, i: nat): View
    requires v.off <= i <= LastIndex(v)
  {
    View(i, TermOf(v, i), v.ents[i - v.off..])
  }

  function StoreCompact(st: seq<Entry>, i: nat): seq<Entry>
    requires |st| >= 1 && Base(st) < i <= StoredLast(st)
  {
    [Entry(st[i - Base(st)].term, st[i - Base(st)].index, Nil)] + st[i - Base(st) + 1..]
  }

  /** Compacting storage moves the base of the log and nothing else, provided storage holds
      the log's own entry there. */
  lemma StoreCompactView(t: Tiers, i: nat)
    requires Consistent(t) && t.snap.None? && Base(t.st) < i <= StoredLast(t.st)
    requires i <= LastIndex(ViewOf(t)) && t.st[i - Base(t.st)].term == TermOf(ViewOf(t), i)
    ensures Consistent(t.(st := StoreCompact(t.st, i)))
    ensures ViewOf(t.(st := StoreCompact(t.st, i))) == Compacted(ViewOf(t), i)
  {
    if t.offset <= i {
      CompactIntoUnstable(t, i);
    } else {
      CompactStored(t, i);
    }
  }

  lemma DropJoin<T>(a: seq<T>, b: seq<T>, d: nat)
    requires d <= |a|
    ensures (a + b)[d..] == a[d..] + b
  {
  }

  lemma StoreCompactOK(st: seq<Entry>, i: nat, hi: nat)
    requires StorageOK(st) && Base(st) < i <= StoredLast(st) && i <= hi <= StoredLast(st)
    ensures StorageOK(StoreCompact(st, i)) && Base(StoreCompact(st, i)) == i && StoredLast(StoreCompact(st, i)) == StoredLast(st)
    ensures StoreCompact(st, i)[1..hi + 1 - i] == st[1..hi + 1 - Base(st)][i - Base(st)..]
  {
  }

  lemma CompactStored(t: Tiers, i: nat)
    requires Consistent(t) && t.snap.None? && Base(t.st) < i <= StoredLast(t.st) && i < t.offset
    requires i <= LastIndex(ViewOf(t)) && t.st[i - Base(t.st)].term == TermOf(ViewOf(t), i)
    ensures Consistent(t.(st := StoreCompact(t.st, i)))
    ensures ViewOf(t.(st := StoreCompact(t.st, i))) == Compacted(ViewOf(t), i)
  {
    StoreCompactOK(t.st, i, t.offset - 1);
    DropJoin(t.st[1..t.offset - Base(t.st)], t.entries, i - Base(t.st));
    hide StoreCompact;
  }

  lemma CompactIntoUnstable(t: Tiers, i: nat)
    requires Consistent(t) && t.snap.None? && Base(t.st) < i <= StoredLast(t.st) && t.offset <= i
    requires i <= LastIndex(ViewOf(t)) && t.st[i - Base(t.st)].term == TermOf(ViewOf(t), i)
    ensures Consistent(t.(st := StoreCompact(t.st, i)))
    ensures ViewOf(t.(st := StoreCompact(t.st, i))) == Compacted(ViewOf(t), i)
  {
    ViewIndexed(t);
    EntryAt(t, i);
    var t' := t.(st := StoreCompact(t.st, i));
    var v := ViewOf(t);
    ViewIndexed(t');
    assert ViewOf(t').ents == t.entries[i + 1 - t.offset..];
    assert |v.ents[i - v.off..]| == |t.entries[i + 1 - t.offset..]|;
    var x, y := v.ents[i - v.off..], t.entries[i + 1 - t.offset..];
    forall k | 0 <= k < |x| ensures x[k] == y[k] {
      EntryAt(t, i + 1 + k);
    }
  }

  // ---------------------------------------------------------------- size-limited reading across the tiers

  lemma FittingPrefix(a: seq<Entry>, b: seq<Entry>, limit: Limit, n: nat)
    requires n <= |a|
    requires Fitting(a, limit, n) < |a|
    ensures Fitting(a + b, limit, n) == Fitting(a, limit, n)
    decreases |a| - n
  {
    assert n < |a| ==> (a + b)[..n + 1] == a[..n + 1];
    if n < |a| && !(n > 0 && Exceeds(TotalSize(a[..n + 1]), limit)) {
      FittingPrefix(a, b, limit, n + 1);
    }
  }

  /** If the limit already bites in the first tier, the second tier adds nothing. */
  lemma LimitAcross(a: seq<Entry>, b: seq<Entry>, limit: Limit)
    requires |LimitSize(a, limit)| < |a|
    ensures LimitSize(a + b, limit) == LimitSize(a, limit)
  {
    FittingPrefix(a, b, limit, 0);
    assert (a + b)[..Fitting(a, limit, 0)] == a[..Fitting(a, limit, 0)];
  }
}
