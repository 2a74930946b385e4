/** What the application receives from a node's event loop. The loop hands over one batch at
    a time: a snapshot if one is waiting, then the entries committed since the last batch.
    Steps of the raft node may come in between at any point. */
module Delivery {
  import opened Types
  import opened LogView
  import opened ProgressSpec
  import opened NodeSpec
  import opened StepFacts
  import opened Storage
  import TwoTier

  datatype Loop = Loop(r: Raft, prevHard: HardState, awaiting: bool, prevSnapi: nat)

  datatype Item = Snap(index: nat) | Ent(e: Entry)

  datatype Event = Input(m: Message) | TakeReady | Advance | Compact(i: nat)

  datatype Effect = Went(l: Loop, items: seq<Item>) | LoopPanic

  function Hard(r: Raft): HardState {
    HardState(r.term, r.vote, r.commit)
  }

  /** Committed and not yet applied, beyond what a snapshot covers. */
  function NextEnts(r: Raft): seq<Entry>
    requires LogSane(r.view, r.committed)
  {
    var lo := Max(r.applied + 1, FirstIndex(r.view));
    if r.committed + 1 > lo then Slice(r.view, lo, r.committed + 1) else []
  }

  function Entries(es: seq<Entry>): seq<Item> {
    seq(|es|, k requires 0 <= k < |es| => Ent(es[k]))
  }

  ghost function Batch(r: Raft): seq<Item>
    requires LogSane(r.view, r.committed)
  {
    (if r.pending then [Snap(r.view.off)] else []) + Entries(NextEnts(r))
  }

  function AfterReady(l: Loop): Loop {
    var hard := Hard(l.r);
    l.(prevHard := if hard == l.prevHard || hard == EmptyState then l.prevHard else hard,
       prevSnapi := if l.r.pending then l.r.view.off else l.prevSnapi,
       awaiting := true)
  }

  /** A response from a sender that is not a member is dropped. */
  predicate Filtered(r: Raft, m: Message) {
    IsResponse(m.kind) && m.from !in r.prs
  }

  ghost predicate Enabled(l: Loop, e: Event) {
    match e
    case Input(m) => Proper(m)
    case TakeReady => !l.awaiting
    case Advance => l.awaiting
    case Compact(i) => !l.r.pending && l.r.view.off < i <= Min(l.r.applied, Last(l.r))
  }

  ghost function After(l: Loop, e: Event): Effect
    requires Enabled(l, e)
  {
    match e
    case Input(m) =>
      if Filtered(l.r, m) then Went(l, [])
      else
        (match Step(l.r, m)
         case Panic => LoopPanic
         case Done(r, _) => Went(l.(r := r), []))
    case TakeReady => if LogSane(l.r.view, l.r.committed) then Went(AfterReady(l), Batch(l.r)) else LoopPanic
    case Advance =>
      var c := l.prevHard.commit;
      if c != 0 && !(l.r.applied <= c <= l.r.committed) then LoopPanic
      else
        Went(l.(r := l.r.(applied := if c != 0 then c else l.r.applied,
                          pending := l.r.pending && l.r.view.off != l.prevSnapi),
                awaiting := false), [])
    case Compact(i) => Went(l.(r := l.r.(view := TwoTier.Compacted(l.r.view, i))), [])
  }

  // ---------------------------------------------------------------- what is delivered

  function ItemIndex(i: Item): nat {
    match i
    case Snap(index) => index
    case Ent(e) => e.index
  }

  /** How far the application is before item k. */
  function Before(start: nat, s: seq<Item>, k: nat): nat
    requires k <= |s|
  {
    if k == 0 then start else ItemIndex(s[k - 1])
  }

  function Position(start: nat, s: seq<Item>): nat {
    Before(start, s, |s|)
  }

  /** No gap, no repeat, no reordering: each entry is the next one; a snapshot leads ahead. */
  predicate InOrder(start: nat, s: seq<Item>) {
    forall k {:trigger Placed(start, s, k)} | 0 <= k < |s| :: Placed(start, s, k)
  }

  predicate Placed(start: nat, s: seq<Item>, k: nat)
    requires k < |s|
  {
    if s[k].Ent? then s[k].e.index == Before(start, s, k) + 1 else s[k].index > Before(start, s, k)
  }

  /** Delivered entries are those of the log, as far back as the log reaches. */
  ghost predicate FromLog(s: seq<Item>, v: View) {
    forall k | 0 <= k < |s| && s[k].Ent? :: InLog(s[k].e, v)
  }

  predicate InLog(e: Entry, v: View) {
    e.index > v.off ==> e.index - v.off <= |v.ents| && v.ents[e.index - v.off - 1] == e
  }

  // ---------------------------------------------------------------- the invariant

  /** The loop's bookkeeping, when the application is at pos. */
  ghost predicate Tracks(l: Loop, pos: nat) {
    && Sane(l.r) && Windows(l.r)
    && (l.r.commit == l.r.committed || (l.r.commit == 0 && l.r.committed == l.r.applied))
    && l.r.applied <= pos <= l.r.committed
    && l.prevHard.commit <= Min(pos, l.r.commit) && l.prevSnapi <= pos
    && (!l.awaiting ==> pos == l.r.applied)
    && (l.awaiting ==> pos == l.prevHard.commit || (l.prevHard.commit == 0 && pos == l.r.applied))
    && (if l.r.pending && !(l.awaiting && l.r.view.off == l.prevSnapi) then pos < l.r.view.off else l.r.view.off <= pos)
  }

  ghost predicate Good(l: Loop, start: nat, s: seq<Item>) {
    Tracks(l, Position(start, s)) && InOrder(start, s) && FromLog(s, l.r.view)
  }

  /** A loop as it starts: nothing handed over yet. */
  ghost predicate Starts(l: Loop) {
    && Sane(l.r) && Windows(l.r) && !l.r.pending && l.r.view.off <= l.r.applied
    && (l.r.commit == l.r.committed || (l.r.commit == 0 && l.r.committed == l.r.applied))
    && l == Loop(l.r, EmptyState, false, 0)
  }

  lemma StartsGood(l: Loop)
    requires Starts(l)
    ensures Good(l, l.r.applied, [])
  {
  }

  lemma AdvanceNeverPanics(l: Loop, pos: nat)
    requires Tracks(l, pos) && l.awaiting
    ensures After(l, Advance).Went? && Tracks(After(l, Advance).l, pos)
  {
  }

  lemma InputTracks(l: Loop, pos: nat, m: Message)
    requires Tracks(l, pos) && Proper(m) && After(l, Input(m)).Went?
    ensures Tracks(After(l, Input(m)).l, pos)
  {
    hide Step, Windows;
    if !Filtered(l.r, m) {
      StepAdvances(l.r, m);
      StepSettles(l.r, m);
    }
  }

  /** Either the step ignored a stale message, or the persisted commit index is settled. */
  lemma StepSettles(r: Raft, m: Message)
    ensures var o := Step(r, m); o.Done? ==> o.r == r || o.r.commit == o.r.committed
  {
    hide Dispatch, Campaign, CatchUp;
  }

  lemma InputKeepsLog(l: Loop, start: nat, s: seq<Item>, m: Message)
    requires Good(l, start, s) && Proper(m) && After(l, Input(m)).Went?
    ensures FromLog(s, After(l, Input(m)).l.r.view)
  {
    hide Step, Windows;
    if !Filtered(l.r, m) {
      StepAdvances(l.r, m);
      var v, v' := l.r.view, Step(l.r, m).r.view;
      forall k | 0 <= k < |s| && s[k].Ent? ensures InLog(s[k].e, v') {
        OrderRises(start, s, k + 1, |s|);
        MovedInLog(s[k].e, v, l.r.committed, v', Step(l.r, m).r.committed);
      }
    }
  }

  lemma MovedInLog(e: Entry, v: View, c: nat, v': View, c': nat)
    requires InLog(e, v) && e.index <= c && LogMoves(v, c, v', c')
    ensures InLog(e, v')
  {
    if Keeps(v, c, v', c') && e.index > v.off {
      assert v.ents[..c - v.off][e.index - v.off - 1] == v'.ents[..c - v.off][e.index - v.off - 1];
    }
  }

  lemma NextEntsAre(r: Raft, pos: nat)
    requires Sane(r) && pos == Max(r.applied, r.view.off)
    ensures var es := NextEnts(r);
            pos + |es| == r.committed && forall k | 0 <= k < |es| :: es[k].index == pos + 1 + k && InLog(es[k], r.view)
  {
  }

  lemma Joined(start: nat, s: seq<Item>, b: seq<Item>)
    requires InOrder(start, s) && InOrder(Position(start, s), b)
    ensures InOrder(start, s + b) && Position(start, s + b) == Position(Position(start, s), b)
  {
    forall k | 0 <= k < |s + b| ensures Placed(start, s + b, k) {
      assert k < |s| ==> Placed(start, s, k);
      assert k >= |s| ==> Placed(Position(start, s), b, k - |s|);
    }
  }

  lemma EntriesInOrder(pos: nat, es: seq<Entry>)
    requires forall k | 0 <= k < |es| :: es[k].index == pos + 1 + k
    ensures InOrder(pos, Entries(es)) && Position(pos, Entries(es)) == pos + |es|
  {
  }

  lemma BatchInOrder(r: Raft, pos: nat)
    requires Sane(r) && pos == r.applied && if r.pending then pos < r.view.off else r.view.off <= pos
    ensures InOrder(pos, Batch(r)) && Position(pos, Batch(r)) == r.committed && FromLog(Batch(r), r.view)
  {
    var pos' := Max(r.applied, r.view.off);
    NextEntsAre(r, pos');
    hide NextEnts, Sane;
    EntriesInOrder(pos', NextEnts(r));
    if r.pending {
      Joined(pos, [Snap(r.view.off)], Entries(NextEnts(r)));
    } else {
      assert Batch(r) == Entries(NextEnts(r));
    }
  }

  lemma {:induction false} OrderRises(start: nat, s: seq<Item>, k: nat, n: nat)
    requires InOrder(start, s) && k <= n <= |s|
    ensures Before(start, s, k) <= Before(start, s, n)
    decreases n
  {
    if k < n {
      OrderRises(start, s, k, n - 1);
      assert Placed(start, s, n - 1);
    }
  }

  /** A batch takes the application exactly to what is committed. */
  lemma BatchExtends(l: Loop, start: nat, s: seq<Item>)
    requires Good(l, start, s) && !l.awaiting
    ensures var s' := s + Batch(l.r);
            InOrder(start, s') && Position(start, s') == l.r.committed && FromLog(s', l.r.view)
  {
    hide Batch, Windows;
    BatchInOrder(l.r, Position(start, s));
    Joined(start, s, Batch(l.r));
  }

  lemma ReadyTracks(l: Loop, pos: nat)
    requires Tracks(l, pos) && !l.awaiting
    ensures Tracks(AfterReady(l), l.r.committed)
  {
    hide Windows;
  }

  lemma CompactTracks(l: Loop, pos: nat, i: nat)
    requires Tracks(l, pos) && Enabled(l, Compact(i))
    ensures Tracks(After(l, Compact(i)).l, pos)
  {
  }

  lemma CompactedInLog(e: Entry, v: View, i: nat)
    requires InLog(e, v) && v.off < i <= LastIndex(v)
    ensures InLog(e, TwoTier.Compacted(v, i))
  {
  }

  lemma CompactKeeps(l: Loop, start: nat, s: seq<Item>, i: nat)
    requires Good(l, start, s) && Enabled(l, Compact(i))
    ensures Good(After(l, Compact(i)).l, start, s)
  {
    CompactTracks(l, Position(start, s), i);
    hide Windows, TwoTier.Compacted, Tracks, InLog;
    forall k | 0 <= k < |s| && s[k].Ent? ensures InLog(s[k].e, TwoTier.Compacted(l.r.view, i)) {
      CompactedInLog(s[k].e, l.r.view, i);
    }
  }

  /** One event keeps everything. */
  lemma EventKeeps(l: Loop, start: nat, s: seq<Item>, e: Event)
    requires Good(l, start, s) && Enabled(l, e) && After(l, e).Went?
    ensures Good(After(l, e).l, start, s + After(l, e).items)
  {
    assert s + [] == s;
    match e {
      case Input(m) =>
        InputTracks(l, Position(start, s), m);
        InputKeepsLog(l, start, s, m);
      case TakeReady =>
        BatchExtends(l, start, s);
        ReadyTracks(l, Position(start, s));
      case Advance => AdvanceNeverPanics(l, Position(start, s));
      case Compact(i) => CompactKeeps(l, start, s, i);
    }
  }

  // ---------------------------------------------------------------- whole runs

  datatype Life = Life(loops: seq<Loop>, streams: seq<seq<Item>>, events: seq<Event>)

  ghost predicate IsLife(u: Life) {
    && |u.loops| == |u.streams| == |u.events| + 1
    && Starts(u.loops[0]) && u.streams[0] == []
    && forall k {:trigger LifeStep(u, k)} | 0 <= k < |u.events| :: LifeStep(u, k)
  }

  ghost predicate LifeStep(u: Life, k: nat)
    requires |u.loops| == |u.streams| == |u.events| + 1 && k < |u.events|
  {
    && Enabled(u.loops[k], u.events[k])
    && After(u.loops[k], u.events[k]).Went?
    && u.loops[k + 1] == After(u.loops[k], u.events[k]).l
    && u.streams[k + 1] == u.streams[k] + After(u.loops[k], u.events[k]).items
  }

  lemma {:induction false} LifeGood(u: Life, k: nat)
    requires IsLife(u) && k < |u.loops|
    ensures Good(u.loops[k], u.loops[0].r.applied, u.streams[k])
  {
    hide Good;
    if k == 0 {
      StartsGood(u.loops[0]);
    } else {
      LifeGood(u, k - 1);
      assert LifeStep(u, k - 1);
      EventKeeps(u.loops[k - 1], u.loops[0].r.applied, u.streams[k - 1], u.events[k - 1]);
    }
  }

  /** Exactly-once, ordered delivery: in every state of every run, the items handed over have
      no gap, no repeat and no reordering, the entries among them are those of the log, and
      applied, delivered, committed and last index are in order. */
  lemma ExactlyOnce(u: Life, k: nat)
    requires IsLife(u) && k < |u.loops|
    ensures var r := u.loops[k].r;
            var start := u.loops[0].r.applied;
            && InOrder(start, u.streams[k])
            && FromLog(u.streams[k], r.view)
            && r.applied <= Position(start, u.streams[k]) <= r.committed <= Last(r)
  {
    LifeGood(u, k);
  }

  /** The loop itself never panics: only a Step can. And a batch leaves nothing committed
      behind. */
  lemma LoopNeverPanics(u: Life, k: nat, e: Event)
    requires IsLife(u) && k < |u.loops| && Enabled(u.loops[k], e)
    ensures After(u.loops[k], e).LoopPanic? ==> e.Input? && Step(u.loops[k].r, e.m).Panic?
    ensures e.TakeReady? ==>
              After(u.loops[k], e).Went? &&
              Position(u.loops[0].r.applied, u.streams[k] + After(u.loops[k], e).items) == u.loops[k].r.committed
  {
    LifeGood(u, k);
    if e.Advance? {
      AdvanceNeverPanics(u.loops[k], Position(u.loops[0].r.applied, u.streams[k]));
    }
    if e.TakeReady? {
      BatchExtends(u.loops[k], u.loops[0].r.applied, u.streams[k]);
    }
  }

  /** With no snapshot in between, what was delivered is one stretch of the log. */
  lemma DeliveredIsLog(start: nat, s: seq<Item>, v: View)
    requires InOrder(start, s) && FromLog(s, v) && Indexed(v) && v.off <= start <= LastIndex(v)
    requires forall k | 0 <= k < |s| :: s[k].Ent?
    ensures Position(start, s) == start + |s| <= LastIndex(v)
    ensures s == Entries(Slice(v, start + 1, start + |s| + 1))
  {
    forall k | 0 <= k < |s| ensures s[k].e.index == start + 1 + k && InLog(s[k].e, v) {
      StepByStep(start, s, k);
    }
  }

  lemma {:induction false} StepByStep(start: nat, s: seq<Item>, k: nat)
    requires InOrder(start, s) && k < |s| && forall k | 0 <= k < |s| :: s[k].Ent?
    ensures s[k].e.index == start + 1 + k
  {
    assert Placed(start, s, k);
    if k > 0 {
      StepByStep(start, s, k - 1);
    }
  }
}
