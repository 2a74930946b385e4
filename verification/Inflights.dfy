/** The sliding window of append messages in flight, as a ring buffer, and the progress
    record that owns it. */
module Inflight {
  import opened Types
  import opened ProgressSpec

  class Inflights {
    var start: nat
    var count: nat
    const size: nat
    const buffer: array<nat>

    ghost predicate Valid()
      reads this
    {
      buffer.Length == size && count <= size && (start < size || start == 0)
    }

    /** The slot that lies k places after the start. */
    function Slot(k: nat): (i: nat)
      requires Valid() && k < size && size > 0
      reads this
      ensures i < size
    {
      if start + k >= size then start + k - size else start + k
    }

    /** The window as a queue, oldest first. */
    ghost function Contents(): (q: seq<nat>)
      requires Valid()
      reads this, buffer
      ensures |q| == count
    {
      seq(count, k requires 0 <= k < count && Valid() reads this, buffer => buffer[Slot(k)])
    }

    constructor (size: nat)
      ensures Valid() && this.size == size && Contents() == [] && fresh(buffer)
    {
      this.size := size;
      this.start := 0;
      this.count := 0;
      this.buffer := new nat[size];
    }

    predicate Full()
      reads this
    {
      count == size
    }

    method Add(inflight: nat)
      requires Valid() && !Full()
      modifies this`count, buffer
      ensures Valid() && Contents() == old(Contents()) + [inflight]
    {
      ghost var was := Contents();
      var next := start + count;
      if next >= size {
        next := next - size;
      }
      buffer[next] := inflight;
      count := count + 1;
      forall k | 0 <= k < |was| ensures Contents()[k] == was[k] {
        assert Slot(k) != next;
      }
    }

    /** Frees the leading entries up to `to`, going round the end of the buffer if need be. */
    method FreeTo(to: nat)
      requires Valid()
      modifies this`start, this`count
      ensures Valid() && Contents() == ProgressSpec.FreeTo(old(Contents()), to)
    {
      if count == 0 || to < buffer[start] {
        assert count > 0 ==> Contents()[0] == buffer[start];
        return;
      }
      ghost var was := Contents();
      var i, idx := 0, start;
      while i < count
        invariant 0 <= i <= count && was == Contents()
        invariant i < count ==> idx == Slot(i)
        invariant i == count ==> idx < size && idx == if start + i >= size then start + i - size else start + i
        invariant ProgressSpec.FreeTo(was, to) == ProgressSpec.FreeTo(was[i..], to)
      {
        assert was[i..][0] == buffer[idx];
        if to < buffer[idx] {
          break;
        }
        assert was[i..][1..] == was[i + 1..];
        idx := idx + 1;
        if idx >= size {
          idx := idx - size;
        }
        i := i + 1;
      }
      count := count - i;
      start := idx;
      assert Contents() == was[i..];
    }

    method FreeFirstOne()
      requires Valid() && count > 0
      modifies this`start, this`count
      ensures Valid() && Contents() == ProgressSpec.FreeTo(old(Contents()), old(Contents())[0])
    {
      assert Contents()[0] == buffer[start];
      FreeTo(buffer[start]);
    }

    method Reset()
      requires Valid()
      modifies this`start, this`count
      ensures Valid() && Contents() == []
    {
      count := 0;
      start := 0;
    }
  }

  /** A leader's record of one peer. */
  class ProgressRecord {
    var matched: nat
    var next: Pos
    var state: ProgressState
    var paused: bool
    var pending: nat
    const ins: Inflights

    ghost predicate Valid()
      reads this, ins
    {
      ins.Valid()
    }

    ghost function Value(): Progress
      requires Valid()
      reads this, ins, ins.buffer
    {
      Progress(matched, next, state, paused, pending, ins.Contents(), ins.size)
    }

    constructor (matched: nat, next: Pos, size: nat)
      ensures Valid() && Value() == Fresh(matched, next, size)
      ensures fresh(ins) && fresh(ins.buffer)
    {
      this.matched := matched;
      this.next := next;
      this.state := Probe;
      this.paused := false;
      this.pending := 0;
      this.ins := new Inflights(size);
    }

    method ResetState(s: ProgressState)
      requires Valid()
      modifies this, ins
      ensures Valid() && Value() == ProgressSpec.ResetState(old(Value()), s)
    {
      paused := false;
      pending := 0;
      state := s;
      ins.Reset();
    }

    method BecomeProbe()
      requires Valid()
      modifies this, ins
      ensures Valid() && Value() == ProgressSpec.BecomeProbe(old(Value()))
    {
      if state == Snapshotting {
        var pendingSnapshot := pending;
        ResetState(Probe);
        next := Max(matched + 1, pendingSnapshot + 1);
      } else {
        ResetState(Probe);
        next := matched + 1;
      }
    }

    method BecomeReplicate()
      requires Valid()
      modifies this, ins
      ensures Valid() && Value() == ProgressSpec.BecomeReplicate(old(Value()))
    {
      ResetState(Replicate);
      next := matched + 1;
    }

    method BecomeSnapshot(index: nat)
      requires Valid()
      modifies this, ins
      ensures Valid() && Value() == ProgressSpec.BecomeSnapshot(old(Value()), index)
    {
      ResetState(Snapshotting);
      pending := index;
    }

    method MaybeUpdate(n: nat) returns (updated: bool)
      requires Valid()
      modifies this
      ensures Valid() && Value() == ProgressSpec.MaybeUpdate(old(Value()), n) && updated == (old(matched) < n)
    {
      updated := false;
      if matched < n {
        matched := n;
        updated := true;
        paused := false;
      }
      if next < n + 1 {
        next := n + 1;
      }
    }

    method MaybeDecrTo(rejected: nat, last: nat) returns (ok: bool)
      requires Valid()
      modifies this
      ensures Valid() && ok == DecrApplies(old(Value()), rejected)
      ensures Value() == ProgressSpec.MaybeDecrTo(old(Value()), rejected, last)
      ensures ok <==> !IsStale(old(Value()), rejected)
      ensures !ok ==> Value() == old(Value())
      ensures ok && old(state) == Replicate ==> Value() == old(Value()).(next := old(matched) + 1)
      ensures ok && old(state) != Replicate ==>
                && Value() == old(Value()).(next := next, paused := false) && BacksOff(rejected, last, next)
                && (old(next) > 1 ==> next < old(next))
    {
      BackOffExactly(Value(), rejected, last);
      if state == Replicate {
        if rejected <= matched {
          return false;
        }
        next := matched + 1;
        return true;
      }
      if next - 1 != rejected {
        return false;
      }
      var n := Min(rejected, last + 1);
      next := if n < 1 then 1 else n;
      paused := false;
      return true;
    }

    predicate IsPaused()
      requires Valid()
      reads this, ins, ins.buffer
      ensures IsPaused() == ProgressSpec.IsPaused(Value())
    {
      match state
      case Probe => paused
      case Replicate => ins.Full()
      case Snapshotting => true
    }

    /** A message with entries up to `last` went out: the window never overflows, because a
        full window pauses the peer. */
    method Sent(last: nat)
      requires Valid() && !IsPaused()
      modifies this, ins, ins.buffer
      ensures Valid()
      ensures Value() == if old(state) == Replicate then old(Value()).(next := last + 1, ins := old(Value()).ins + [last])
                         else old(Value()).(paused := true)
    {
      if state == Replicate {
        next := last + 1;
        ins.Add(last);
      } else {
        paused := true;
      }
    }
  }
}
