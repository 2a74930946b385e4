/** A leader's view of one peer, as a value. `ins` holds, oldest first, the last index of
    every append message in flight; `size` is the width of that window. */
module ProgressSpec {
  import opened Types

  type Pos = x: nat | x >= 1 witness 1

  datatype ProgressState = Probe | Replicate | Snapshotting

  datatype Progress = Progress(
    matched: nat,
    next: Pos,
    state: ProgressState,
    paused: bool,
    pending: nat,
    ins: seq<nat>,
    size: nat)

  function Fresh(matched: nat, next: Pos, size: nat): Progress {
    Progress(matched, next, Probe, false, 0, [], size)
  }

  function ResetState(p: Progress, state: ProgressState): Progress {
    p.(paused := false, pending := 0, state := state, ins := [])
  }

  function BecomeProbe(p: Progress): Progress {
    var next := if p.state.Snapshotting? then Max(p.matched + 1, p.pending + 1) else p.matched + 1;
    ResetState(p, Probe).(next := next)
  }

  function BecomeReplicate(p: Progress): Progress {
    ResetState(p, Replicate).(next := p.matched + 1)
  }

  function BecomeSnapshot(p: Progress, index: nat): Progress {
    ResetState(p, Snapshotting).(pending := index)
  }

  function MaybeUpdate(p: Progress, n: nat): Progress {
    var p1 := if p.matched < n then p.(matched := n, paused := false) else p;
    if p1.next < n + 1 then p1.(next := n + 1) else p1
  }

  /** Whether a rejection of index `rejected` is current rather than stale. */
  predicate DecrApplies(p: Progress, rejected: nat) {
    if p.state.Replicate? then rejected > p.matched else p.next - 1 == rejected
  }

  function MaybeDecrTo(p: Progress, rejected: nat, last: nat): Progress {
    if !DecrApplies(p, rejected) then p
    else if p.state.Replicate? then p.(next := p.matched + 1)
    else
      var n := Min(rejected, last + 1);
      p.(next := if n < 1 then 1 else n, paused := false)
  }

  predicate Full(p: Progress) {
    |p.ins| == p.size
  }

  predicate IsPaused(p: Progress) {
    match p.state
    case Probe => p.paused
    case Replicate => Full(p)
    case Snapshotting => true
  }

  /** Drop the leading indices that are at most `to`. */
  function FreeTo(ins: seq<nat>, to: nat): seq<nat> {
    if ins == [] || to < ins[0] then ins else FreeTo(ins[1..], to)
  }

  // ---------------------------------------------------------------- backing off

  /** Position n is the greatest one, from 1 on, that lies above neither the rejected index nor
      the position behind the peer's last entry; 1 if there is none. */
  ghost predicate BacksOff(rejected: nat, last: nat, n: Pos) {
    && (forall x: nat {:trigger Below(x, rejected, last)} | Below(x, rejected, last) :: x <= n)
    && (n == 1 || Below(n, rejected, last))
  }

  predicate Below(x: nat, rejected: nat, last: nat) {
    1 <= x <= rejected && x <= last + 1
  }

  /** A rejection that does not answer the last message is ignored. */
  predicate IsStale(p: Progress, rejected: nat) {
    if p.state.Replicate? then rejected <= p.matched else p.next != rejected + 1
  }

  /** The record of a peer after a rejection: a stale one changes nothing, one in Replicate state
      leads back to behind the match index, any other lowers next, strictly if it can. */
  lemma BackOffExactly(p: Progress, rejected: nat, last: nat)
    ensures DecrApplies(p, rejected) <==> !IsStale(p, rejected)
    ensures var q := MaybeDecrTo(p, rejected, last);
            if IsStale(p, rejected) then q == p
            else if p.state.Replicate? then q == p.(next := p.matched + 1)
            else
              && q == p.(next := q.next, paused := false) && BacksOff(rejected, last, q.next)
              && (p.next > 1 ==> q.next < p.next)
  {
    assert 1 <= rejected ==> Below(Min(rejected, last + 1), rejected, last);
  }

  // ---------------------------------------------------------------- the window

  predicate Rising(ins: seq<nat>) {
    forall i, j | 0 <= i < j < |ins| :: ins[i] < ins[j]
  }

  /** In Replicate state the window is strictly rising, lies strictly between the match
      index and the next index, and is no wider than its size; in other states it is empty. */
  predicate Window(p: Progress) {
    if p.state.Replicate? then
      && |p.ins| <= p.size && p.matched < p.next && Rising(p.ins)
      && forall i | 0 <= i < |p.ins| :: p.matched < p.ins[i] < p.next
    else p.ins == []
  }

  /** On a rising window, freeing removes exactly the indices up to `to` and keeps the order. */
  lemma {:induction false} FreeToExact(ins: seq<nat>, to: nat)
    requires Rising(ins)
    ensures exists k :: 0 <= k <= |ins| && FreeTo(ins, to) == ins[k..]
                        && (forall i | 0 <= i < k :: ins[i] <= to) && (forall i | k <= i < |ins| :: ins[i] > to)
  {
    if ins == [] || to < ins[0] {
      assert FreeTo(ins, to) == ins[0..];
    } else {
      FreeToExact(ins[1..], to);
      var k :| 0 <= k <= |ins[1..]| && FreeTo(ins[1..], to) == ins[1..][k..]
               && (forall i | 0 <= i < k :: ins[1..][i] <= to) && (forall i | k <= i < |ins[1..]| :: ins[1..][i] > to);
      assert ins[1..][k..] == ins[k + 1..];
      forall i | 0 <= i < k + 1 ensures ins[i] <= to {
        assert i > 0 ==> ins[i] == ins[1..][i - 1];
      }
      forall i | k + 1 <= i < |ins| ensures ins[i] > to {
        assert ins[i] == ins[1..][i - 1];
      }
    }
  }

  /** Taking an acknowledgement of n into the window: the match index rises to n and what
      is at most n leaves. */
  lemma AckKeepsWindow(p: Progress, n: nat)
    requires Window(p) && p.state.Replicate? && p.matched < n
    ensures Window(MaybeUpdate(p, n).(ins := FreeTo(p.ins, n)))
  {
    FreeToExact(p.ins, n);
  }

  /** Freeing the oldest index removes that one alone. */
  lemma FreeFirstOne(ins: seq<nat>)
    requires Rising(ins) && ins != []
    ensures FreeTo(ins, ins[0]) == ins[1..]
  {
    if |ins| > 1 {
      assert ins[1..][0] == ins[1];
    }
  }
}
