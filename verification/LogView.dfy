/** The log of a node as one sequence, whatever tiers it is stored in: the entries after a
    base position, whose own term is kept for matching. The functions below say what the
    log operations mean on that sequence. */
module LogView {
  import opened Types
  import Varint

  datatype View = View(off: nat, offTerm: nat, ents: seq<Entry>)

  function FirstIndex(v: View): nat {
    v.off + 1
  }

  function LastIndex(v: View): nat {
    v.off + |v.ents|
  }

  /** Entries that follow position `before` without a gap. */
  predicate Follow(before: nat, ents: seq<Entry>) {
    forall k | 0 <= k < |ents| :: ents[k].index == before + 1 + k
  }

  lemma FollowRest(before: nat, ents: seq<Entry>, k: nat)
    requires Follow(before, ents) && k <= |ents|
    ensures Follow(before + k, ents[k..])
    ensures ents[k..] != [] ==> ents[k..][0].index == before + k + 1
  {
  }

  predicate Indexed(v: View) {
    Follow(v.off, v.ents)
  }

  /** Zero stands for "no such entry", below the base as well as past the end. */
  function TermOf(v: View, i: nat): nat {
    if i < v.off || i > LastIndex(v) then 0
    else if i == v.off then v.offTerm
    else v.ents[i - v.off - 1].term
  }

  function LastTermOf(v: View): nat {
    TermOf(v, LastIndex(v))
  }

  predicate MatchTerm(v: View, i: nat, term: nat) {
    TermOf(v, i) == term
  }

  predicate IsUpToDate(v: View, lastIndex: nat, term: nat) {
    term > LastTermOf(v) || (term == LastTermOf(v) && lastIndex >= LastIndex(v))
  }

  /** The entries at positions lo up to, but not including, hi. */
  function Slice(v: View, lo: nat, hi: nat): seq<Entry>
    requires FirstIndex(v) <= lo <= hi <= LastIndex(v) + 1
  {
    v.ents[lo - FirstIndex(v)..hi - FirstIndex(v)]
  }

  /** Keep the log up to and including `after`, then put ents behind it. */
  function TruncateAppend(v: View, after: nat, ents: seq<Entry>): View
    requires v.off <= after <= LastIndex(v)
  {
    v.(ents := v.ents[..after - v.off] + ents)
  }

  /** The index of the first given entry that the log lacks or contradicts; 0 if none. */
  function FindConflict(v: View, ents: seq<Entry>): nat {
    if ents == [] then 0
    else if !MatchTerm(v, ents[0].index, ents[0].term) then ents[0].index
    else FindConflict(v, ents[1..])
  }

  /** The encoded size of an entry: type, term and index fields, then the data field. */
  function EntrySize(e: Entry): nat {
    2 + (1 + Varint.Size(e.term)) + (1 + Varint.Size(e.index))
    + match e.data
      case Nil => 0
      case Bytes(b) => 1 + |b| + Varint.Size(|b|)
  }

  /** The encoding itself: each field behind the byte that names it. A payload that is nil is
      left out, an empty one is not. */
  function EncodeEntry(e: Entry): seq<byte> {
    [0x8] + Varint.Encode(0) + [0x10] + Varint.Encode(e.term) + [0x18] + Varint.Encode(e.index)
    + Tail(e)
  }

  lemma EntrySizeIsLength(e: Entry)
    ensures EntrySize(e) == |EncodeEntry(e)|
  {
    Varint.SizeIsLength(e.term);
    Varint.SizeIsLength(e.index);
    if e.data.Bytes? {
      Varint.SizeIsLength(|e.data.bytes|);
    }
  }

  function Tail(e: Entry): seq<byte> {
    match e.data
    case Nil => []
    case Bytes(b) => [0x22] + Varint.Encode(|b|) + b
  }

  lemma ReadNumber(x: nat, y: nat, a: seq<byte>, b: seq<byte>)
    requires x < Varint.TWO_64 && y < Varint.TWO_64 && Varint.Encode(x) + a == Varint.Encode(y) + b
    ensures x == y && a == b
  {
    Varint.RoundTrip(x, a);
    Varint.RoundTrip(y, b);
    assert a == (Varint.Encode(x) + a)[|Varint.Encode(x)|..];
    assert b == (Varint.Encode(y) + b)[|Varint.Encode(y)|..];
  }

  lemma SameTail(a: Entry, b: Entry)
    requires Tail(a) == Tail(b) && (a.data.Bytes? ==> |a.data.bytes| < Varint.TWO_64) && (b.data.Bytes? ==> |b.data.bytes| < Varint.TWO_64)
    ensures a.data == b.data
  {
    if a.data.Bytes? && b.data.Bytes? {
      var x, y := a.data.bytes, b.data.bytes;
      assert Tail(a)[1..] == Varint.Encode(|x|) + x;
      assert Tail(b)[1..] == Varint.Encode(|y|) + y;
      ReadNumber(|x|, |y|, x, y);
    }
  }

  lemma CodeIs(e: Entry)
    ensures |EncodeEntry(e)| >= 3
    ensures EncodeEntry(e)[3..] == Varint.Encode(e.term) + ([0x18] + (Varint.Encode(e.index) + Tail(e)))
  {
    var t, i := Varint.Encode(e.term), Varint.Encode(e.index);
    hide Tail, Varint.Encode;
    assert |Varint.Encode(0)| == 1 by {
      ZeroIsOne();
    }
    var head := [0x8] + Varint.Encode(0) + [0x10];
    assert EncodeEntry(e) == head + (t + ([0x18] + (i + Tail(e))));
  }

  lemma ZeroIsOne()
    ensures |Varint.Encode(0)| == 1
  {
  }

  /** Different entries have different encodings. */
  lemma EntriesToldApart(a: Entry, b: Entry)
    requires a.term < Varint.TWO_64 && b.term < Varint.TWO_64 && a.index < Varint.TWO_64 && b.index < Varint.TWO_64
    requires (a.data.Bytes? ==> |a.data.bytes| < Varint.TWO_64) && (b.data.Bytes? ==> |b.data.bytes| < Varint.TWO_64)
    requires EncodeEntry(a) == EncodeEntry(b)
    ensures a == b
  {
    hide EncodeEntry, Tail, Varint.Encode;
    CodeIs(a);
    CodeIs(b);
    var a2, b2 := Varint.Encode(a.index) + Tail(a), Varint.Encode(b.index) + Tail(b);
    ReadNumber(a.term, b.term, [0x18] + a2, [0x18] + b2);
    assert a2 == ([0x18] + a2)[1..] && b2 == ([0x18] + b2)[1..];
    ReadNumber(a.index, b.index, Tail(a), Tail(b));
    SameTail(a, b);
  }

  function TotalSize(ents: seq<Entry>): nat {
    if ents == [] then 0 else TotalSize(ents[..|ents| - 1]) + EntrySize(ents[|ents| - 1])
  }

  /** A bound on the size of a message. No real slice of entries reaches the largest
      64-bit number, which the source uses for "no limit". */
  datatype Limit = NoLimit | AtMost(bytes: nat)

  predicate Exceeds(size: nat, limit: Limit) {
    limit.AtMost? && size > limit.bytes
  }

  /** How many entries to keep: as many as stay within the limit, counting from n. */
  function Fitting(ents: seq<Entry>, limit: Limit, n: nat): (r: nat)
    requires n <= |ents|
    ensures n <= r <= |ents|
    decreases |ents| - n
  {
    if n == |ents| || (n > 0 && Exceeds(TotalSize(ents[..n + 1]), limit)) then n
    else Fitting(ents, limit, n + 1)
  }

  function LimitSize(ents: seq<Entry>, limit: Limit): seq<Entry> {
    ents[..Fitting(ents, limit, 0)]
  }

  lemma TotalSizeGrows(ents: seq<Entry>, m: nat, n: nat)
    requires m <= n <= |ents|
    ensures TotalSize(ents[..m]) <= TotalSize(ents[..n])
  {
    if m < n {
      TotalSizeGrows(ents, m, n - 1);
      assert ents[..n][..n - 1] == ents[..n - 1];
    }
  }

  lemma {:induction false} FittingIs(ents: seq<Entry>, limit: Limit, n: nat, r: nat)
    requires n <= r <= |ents| && (r > n || r > 0 || ents == [])
    requires r > n ==> r == 1 || !Exceeds(TotalSize(ents[..r]), limit)
    requires r < |ents| ==> Exceeds(TotalSize(ents[..r + 1]), limit)
    ensures Fitting(ents, limit, n) == r
    decreases r - n
  {
    if n < r {
      if n > 0 {
        TotalSizeGrows(ents, n + 1, r);
      }
      FittingIs(ents, limit, n + 1, r);
    }
  }

  /** What a size-limited slice is: the longest prefix within the limit, except that the
      first entry is always included. */
  lemma LimitSizeIsLongest(ents: seq<Entry>, limit: Limit, r: nat)
    requires r <= |ents| && (r == 0 <==> ents == [])
    requires r <= 1 || !Exceeds(TotalSize(ents[..r]), limit)
    requires r < |ents| ==> Exceeds(TotalSize(ents[..r + 1]), limit)
    ensures LimitSize(ents, limit) == ents[..r]
  {
    FittingIs(ents, limit, 0, r);
  }
}
