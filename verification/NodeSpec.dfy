/** What one raft node does with one message, as a function of its state. `snap` is the
    latest snapshot; `pending` says that the application has not stored it yet. A panic of the
    source is an outcome like any other, so that its absence can be proved. Loops over
    peers visit them in no particular order and touch each separately, which is why their
    effect is a comprehension and the messages sent form a set. */
module NodeSpec {
  import opened Types
  import opened LogView
  import opened ProgressSpec
  import opened Quorums

  datatype Raft = Raft(
    id: NodeId,
    term: nat,
    vote: NodeId,
    commit: nat,
    view: View,
    committed: nat,
    applied: nat,
    snap: Snapshot,
    pending: bool,
    prs: map<NodeId, Progress>,
    role: Role,
    votes: map<NodeId, bool>,
    lead: NodeId,
    maxInflight: nat,
    limit: Limit)

  datatype Outcome = Done(r: Raft, out: set<Message>) | Panic

  /** Go on with f after o, collecting what both send. */
  ghost function Then(o: Outcome, f: Raft -> Outcome): Outcome {
    match o
    case Panic => Panic
    case Done(r, out) =>
      match f(r)
      case Panic => Panic
      case Done(r', out') => Done(r', out + out')
  }

  function Last(r: Raft): nat {
    LastIndex(r.view)
  }

  function Quorum(r: Raft): nat {
    |r.prs| / 2 + 1
  }

  // ---------------------------------------------------------------- the log

  datatype LogOutcome = Appended(view: View, committed: nat) | Rejected | LogPanic

  /** Never goes back; must not pass the end of the log. */
  function CommitTo(view: View, committed: nat, c: nat): LogOutcome {
    if committed < c then
      if LastIndex(view) < c then LogPanic else Appended(view, c)
    else
      Appended(view, committed)
  }

  /** Append may rewrite what is not committed, and must leave no gap. */
  function Append(view: View, committed: nat, ents: seq<Entry>): LogOutcome {
    if ents == [] then Appended(view, committed)
    else if ents[0].index < 1 || ents[0].index - 1 < committed then LogPanic
    else if !(view.off <= ents[0].index - 1 <= LastIndex(view)) then LogPanic
    else Appended(TruncateAppend(view, ents[0].index - 1, ents), committed)
  }

  function MaybeAppend(view: View, committed: nat, index: nat, logTerm: nat, c: nat, ents: seq<Entry>): LogOutcome {
    if !MatchTerm(view, index, logTerm) then Rejected
    else
      var ci := FindConflict(view, ents);
      var upTo := Min(c, index + |ents|);
      if ci == 0 then CommitTo(view, committed, upTo)
      else if ci <= committed then LogPanic
      else if !(index + 1 <= ci <= index + 1 + |ents|) then LogPanic
      else
        match Append(view, committed, ents[ci - (index + 1)..])
        case Appended(view', committed') => CommitTo(view', committed', upTo)
        case _ => LogPanic
  }

  // ---------------------------------------------------------------- sending

  datatype Sent = Sent(pr: Progress, msgs: set<Message>) | SendPanic

  function AppMessage(r: Raft, to: NodeId, pr: Progress, ents: seq<Entry>): Message {
    Blank(MsgApp, to, r.id, r.term)
      .(index := pr.next - 1, logTerm := TermOf(r.view, pr.next - 1), entries := ents, commit := r.committed)
  }

  function SnapMessage(r: Raft, to: NodeId): Message {
    Blank(MsgSnap, to, r.id, r.term).(snapshot := r.snap)
  }

  /** The entries that follow the peer's next index, up to the size limit. */
  function Outstanding(r: Raft, next: Pos): seq<Entry>
    requires next > Last(r) || FirstIndex(r.view) <= next
  {
    if next > Last(r) then [] else LimitSize(Slice(r.view, next, Last(r) + 1), r.limit)
  }

  function AfterSending(pr: Progress, ents: seq<Entry>): Progress {
    if ents == [] then pr
    else
      var last := ents[|ents| - 1].index;
      if pr.state.Replicate? then pr.(next := last + 1, ins := pr.ins + [last])
      else pr.(paused := true)
  }

  /** An append message to one peer, or a snapshot if the entries it needs are gone. */
  function AppendTo(r: Raft, to: NodeId): Sent
    requires to in r.prs
  {
    var pr := r.prs[to];
    if IsPaused(pr) then Sent(pr, {})
    else if pr.next <= Last(r) && pr.next < FirstIndex(r.view) then
      if r.snap.index == 0 then SendPanic
      else Sent(BecomeSnapshot(pr, r.snap.index), {SnapMessage(r, to)})
    else
      var ents := Outstanding(r, pr.next);
      Sent(AfterSending(pr, ents), {AppMessage(r, to, pr, ents)})
  }

  function SendAppend(r: Raft, to: NodeId): Outcome {
    if to !in r.prs then Panic
    else
      match AppendTo(r, to)
      case SendPanic => Panic
      case Sent(pr, msgs) => Done(r.(prs := r.prs[to := pr]), msgs)
  }

  ghost predicate AllSend(r: Raft) {
    forall to | to in r.prs && to != r.id :: AppendTo(r, to).Sent?
  }

  ghost function BcastAppend(r: Raft): Outcome {
    if !AllSend(r) then Panic
    else
      Done(r.(prs := map to | to in r.prs :: if to == r.id then r.prs[to] else AppendTo(r, to).pr),
           set to, m | to in r.prs && to != r.id && m in AppendTo(r, to).msgs :: m)
  }

  function HeartbeatMessage(r: Raft, to: NodeId): Message
    requires to in r.prs
  {
    Blank(MsgHeartbeat, to, r.id, r.term).(commit := Min(r.prs[to].matched, r.committed))
  }

  function BcastHeartbeat(r: Raft): Outcome {
    Done(r.(prs := map to | to in r.prs :: if to == r.id then r.prs[to] else r.prs[to].(paused := false)),
         set to | to in r.prs && to != r.id :: HeartbeatMessage(r, to))
  }

  // ---------------------------------------------------------------- committing

  ghost function Reached(prs: map<NodeId, Progress>, x: nat): set<NodeId> {
    set i | i in prs && x <= prs[i].matched
  }

  /** The greatest index that a majority of the match indices reach. */
  ghost predicate IsQuorumIndex(prs: map<NodeId, Progress>, x: nat) {
    forall y: nat :: |Reached(prs, y)| >= |prs| / 2 + 1 <==> y <= x
  }

  ghost function MaybeCommit(r: Raft): Outcome {
    if r.prs == map[] then Panic
    else
      var mci: nat := QuorumIndex(r.prs);
      if mci > r.committed && TermOf(r.view, mci) == r.term then
        match CommitTo(r.view, r.committed, mci)
        case Appended(_, c) => Done(r.(committed := c), {})
        case _ => Panic
      else
        Done(r, {})
  }

  ghost function QuorumIndex(prs: map<NodeId, Progress>): (x: nat)
    requires prs != map[]
    ensures IsQuorumIndex(prs, x)
  {
    QuorumIndexExists(prs);
    var x: nat :| IsQuorumIndex(prs, x);
    x
  }

  function Stamp(term: nat, before: nat, ents: seq<Entry>): seq<Entry> {
    seq(|ents|, k requires 0 <= k < |ents| => Entry(term, before + 1 + k, ents[k].data))
  }

  ghost function AppendEntry(r: Raft, ents: seq<Entry>): Outcome {
    match Append(r.view, r.committed, Stamp(r.term, Last(r), ents))
    case Appended(view, _) =>
      if r.id !in r.prs then Panic
      else
        var r1 := r.(view := view);
        MaybeCommit(r1.(prs := r1.prs[r.id := MaybeUpdate(r1.prs[r.id], Last(r1))]))
    case _ => Panic
  }

  // ---------------------------------------------------------------- changing role

  function Reset(r: Raft, term: nat): Raft {
    r.(term := term,
       vote := if r.term != term then NONE else r.vote,
       lead := NONE,
       votes := map[],
       prs := map i | i in r.prs :: Fresh(if i == r.id then Last(r) else 0, Last(r) + 1, r.maxInflight))
  }

  function BecomeFollower(r: Raft, term: nat, lead: NodeId): Raft {
    Reset(r, term).(lead := lead, role := Follower)
  }

  function BecomeCandidate(r: Raft): Outcome {
    if r.role.Leader? then Panic
    else Done(Reset(r, r.term + 1).(vote := r.id, role := Candidate), {})
  }

  ghost function BecomeLeader(r: Raft): Outcome {
    if r.role.Follower? then Panic
    else AppendEntry(Reset(r, r.term).(lead := r.id, role := Leader), [Entry(0, 0, Nil)])
  }

  function Polled(r: Raft, id: NodeId, v: bool): Raft {
    if id in r.votes then r else r.(votes := r.votes[id := v])
  }

  function Granted(r: Raft): set<NodeId> {
    set i | i in r.votes && r.votes[i]
  }

  function VoteMessage(r: Raft, to: NodeId): Message {
    Blank(MsgVote, to, r.id, r.term).(index := Last(r), logTerm := LastTermOf(r.view))
  }

  ghost function Campaign(r: Raft): Outcome {
    match BecomeCandidate(r)
    case Panic => Panic
    case Done(r1, _) =>
      var r2 := Polled(r1, r1.id, true);
      if |Granted(r2)| == Quorum(r2) then BecomeLeader(r2)
      else Done(r2, set to | to in r2.prs && to != r2.id :: VoteMessage(r2, to))
  }

  // ---------------------------------------------------------------- handlers

  function Reply(r: Raft, m: Message, kind: MessageType): Message {
    Blank(kind, m.from, r.id, r.term)
  }

  function HandleAppendEntries(r: Raft, m: Message): Outcome {
    if m.index < r.commit then
      Done(r, {Reply(r, m, MsgAppResp).(index := r.commit)})
    else
      match MaybeAppend(r.view, r.committed, m.index, m.logTerm, m.commit, m.entries)
      case LogPanic => Panic
      case Appended(view, c) =>
        Done(r.(view := view, committed := c), {Reply(r, m, MsgAppResp).(index := m.index + |m.entries|)})
      case Rejected =>
        Done(r, {Reply(r, m, MsgAppResp).(index := m.index, reject := true, rejectHint := Last(r))})
  }

  function HandleHeartbeat(r: Raft, m: Message): Outcome {
    match CommitTo(r.view, r.committed, m.commit)
    case Appended(_, c) => Done(r.(committed := c), {Reply(r, m, MsgHeartbeatResp)})
    case _ => Panic
  }

  /** Replace the whole log, and the configuration, by a snapshot. */
  function Restored(r: Raft, s: Snapshot): Raft {
    r.(view := View(s.index, s.term, []), committed := s.index, snap := s, pending := true,
       prs := map n | n in s.nodes :: Fresh(if n == r.id then s.index else 0, s.index + 1, r.maxInflight))
  }

  function HandleSnapshot(r: Raft, m: Message): Outcome {
    var s := m.snapshot;
    if s.index <= r.committed then
      Done(r, {Reply(r, m, MsgAppResp).(index := r.committed)})
    else if MatchTerm(r.view, s.index, s.term) then
      match CommitTo(r.view, r.committed, s.index)
      case Appended(_, c) => Done(r.(committed := c), {Reply(r, m, MsgAppResp).(index := c)})
      case _ => Panic
    else
      Done(Restored(r, s), {Reply(r, m, MsgAppResp).(index := s.index)})
  }

  function RejectVote(r: Raft, m: Message): Outcome {
    Done(r, {Reply(r, m, MsgVoteResp).(reject := true)})
  }

  // ---------------------------------------------------------------- leader

  function SetProgress(r: Raft, id: NodeId, pr: Progress): Raft {
    r.(prs := r.prs[id := pr])
  }

  /** The peer refused: back off and try again, unless the refusal is stale. */
  function LeaderRejected(r: Raft, m: Message): Outcome
    requires m.from in r.prs
  {
    var pr := r.prs[m.from];
    if !DecrApplies(pr, m.index) then Done(r, {})
    else
      var pr1 := MaybeDecrTo(pr, m.index, m.rejectHint);
      SendAppend(SetProgress(r, m.from, if pr1.state.Replicate? then BecomeProbe(pr1) else pr1), m.from)
  }

  /** The progress of a peer after it acknowledged a new index. */
  function Acknowledged(pr: Progress, n: nat): Progress {
    var pr1 := MaybeUpdate(pr, n);
    match pr1.state
    case Probe => BecomeReplicate(pr1)
    case Snapshotting => if pr1.matched >= pr1.pending then BecomeProbe(pr1) else pr1
    case Replicate => pr1.(ins := FreeTo(pr1.ins, n))
  }

  ghost function LeaderAccepted(r: Raft, m: Message): Outcome
    requires m.from in r.prs
  {
    var pr := r.prs[m.from];
    if m.index <= pr.matched then Done(SetProgress(r, m.from, MaybeUpdate(pr, m.index)), {})
    else
      match MaybeCommit(SetProgress(r, m.from, Acknowledged(pr, m.index)))
      case Panic => Panic
      case Done(r1, _) =>
        if r1.committed != r.committed then BcastAppend(r1)
        else if IsPaused(pr) then SendAppend(r1, m.from)
        else Done(r1, {})
  }

  function LeaderHeartbeatResp(r: Raft, m: Message): Outcome
    requires m.from in r.prs
  {
    var pr := r.prs[m.from];
    if pr.state.Replicate? && Full(pr) && pr.ins == [] then Panic
    else
      var pr1 := if pr.state.Replicate? && Full(pr) then pr.(ins := FreeTo(pr.ins, pr.ins[0])) else pr;
      var r1 := SetProgress(r, m.from, pr1);
      if pr1.matched < Last(r) then SendAppend(r1, m.from) else Done(r1, {})
  }

  function LeaderSnapStatus(r: Raft, m: Message): Outcome
    requires m.from in r.prs
  {
    var pr := r.prs[m.from];
    if !pr.state.Snapshotting? then Done(r, {})
    else
      var pr1 := BecomeProbe(if m.reject then pr.(pending := 0) else pr);
      Done(SetProgress(r, m.from, pr1.(paused := true)), {})
  }

  function LeaderUnreachable(r: Raft, m: Message): Outcome
    requires m.from in r.prs
  {
    var pr := r.prs[m.from];
    Done(SetProgress(r, m.from, if pr.state.Replicate? then BecomeProbe(pr) else pr), {})
  }

  ghost function StepLeader(r: Raft, m: Message): Outcome {
    match m.kind
    case MsgBeat => BcastHeartbeat(r)
    case MsgProp =>
      if m.entries == [] then Panic
      else if r.id !in r.prs then Done(r, {})
      else Then(AppendEntry(r, m.entries), BcastAppend)
    case MsgAppResp =>
      if m.from !in r.prs then Panic
      else if m.reject then LeaderRejected(r, m)
      else LeaderAccepted(r, m)
    case MsgHeartbeatResp => if m.from !in r.prs then Panic else LeaderHeartbeatResp(r, m)
    case MsgVote => RejectVote(r, m)
    case MsgSnapStatus => if m.from !in r.prs then Panic else LeaderSnapStatus(r, m)
    case MsgUnreachable => if m.from !in r.prs then Panic else LeaderUnreachable(r, m)
    case _ => Done(r, {})
  }

  // ---------------------------------------------------------------- candidate and follower

  ghost function CandidateVoteResp(r: Raft, m: Message): Outcome {
    var r1 := Polled(r, m.from, !m.reject);
    if |Granted(r1)| == Quorum(r1) then Then(BecomeLeader(r1), BcastAppend)
    else if |r1.votes| - |Granted(r1)| == Quorum(r1) then Done(BecomeFollower(r1, r1.term, NONE), {})
    else Done(r1, {})
  }

  ghost function StepCandidate(r: Raft, m: Message): Outcome {
    match m.kind
    case MsgApp => HandleAppendEntries(BecomeFollower(r, r.term, m.from), m)
    case MsgHeartbeat => HandleHeartbeat(BecomeFollower(r, r.term, m.from), m)
    case MsgSnap => HandleSnapshot(BecomeFollower(r, m.term, m.from), m)
    case MsgVote => RejectVote(r, m)
    case MsgVoteResp => CandidateVoteResp(r, m)
    case _ => Done(r, {})
  }

  predicate CanVote(r: Raft, m: Message) {
    (r.vote == NONE || r.vote == m.from) && IsUpToDate(r.view, m.index, m.logTerm)
  }

  function StepFollower(r: Raft, m: Message): Outcome {
    match m.kind
    case MsgProp =>
      if r.lead == NONE then Done(r, {})
      else Done(r, {m.(to := r.lead, from := r.id)})
    case MsgApp => HandleAppendEntries(r.(lead := m.from), m)
    case MsgHeartbeat => HandleHeartbeat(r.(lead := m.from), m)
    case MsgSnap => HandleSnapshot(r, m)
    case MsgVote =>
      if CanVote(r, m) then Done(r.(vote := m.from), {Reply(r, m, MsgVoteResp)})
      else RejectVote(r, m)
    case _ => Done(r, {})
  }

  // ---------------------------------------------------------------- Step

  ghost function Dispatch(r: Raft, m: Message): Outcome {
    match r.role
    case Leader => StepLeader(r, m)
    case Candidate => StepCandidate(r, m)
    case Follower => StepFollower(r, m)
  }

  /** The persisted commit index follows the log's. */
  function Settled(o: Outcome): Outcome {
    match o
    case Panic => Panic
    case Done(r, out) => Done(r.(commit := r.committed), out)
  }

  function CatchUp(r: Raft, m: Message): Raft {
    if m.term > r.term then BecomeFollower(r, m.term, if m.kind.MsgVote? then NONE else m.from) else r
  }

  ghost function Step(r: Raft, m: Message): Outcome {
    if m.kind.MsgHup? then Settled(Campaign(r))
    else if m.term != 0 && m.term < r.term then Done(r, {})
    else Settled(Dispatch(CatchUp(r, m), m))
  }

  // ---------------------------------------------------------------- existence of the quorum index

  lemma ReachedShrinks(prs: map<NodeId, Progress>, x: nat, y: nat)
    requires x <= y
    ensures |Reached(prs, y)| <= |Reached(prs, x)|
  {
    SubsetSize(Reached(prs, y), Reached(prs, x));
  }

  /** Climb from an index a majority reaches to the last such index. */
  lemma ClimbToQuorum(prs: map<NodeId, Progress>, x: nat, top: nat)
    requires |Reached(prs, x)| >= |prs| / 2 + 1
    requires x <= top && Reached(prs, top) == {}
    ensures exists y: nat :: IsQuorumIndex(prs, y)
    decreases top - x
  {
    if |Reached(prs, x + 1)| >= |prs| / 2 + 1 {
      ClimbToQuorum(prs, x + 1, top);
    } else {
      forall y: nat ensures |Reached(prs, y)| >= |prs| / 2 + 1 <==> y <= x {
        if y <= x {
          ReachedShrinks(prs, y, x);
        } else {
          ReachedShrinks(prs, x + 1, y);
        }
      }
      assert IsQuorumIndex(prs, x);
    }
  }

  lemma Bounded(prs: map<NodeId, Progress>, ids: set<NodeId>) returns (top: nat)
    requires ids <= prs.Keys
    ensures forall i | i in ids :: prs[i].matched < top
  {
    if ids == {} {
      top := 0;
    } else {
      var i :| i in ids;
      var t := Bounded(prs, ids - {i});
      top := Max(t, prs[i].matched + 1);
    }
  }

  lemma QuorumIndexExists(prs: map<NodeId, Progress>)
    requires prs != map[]
    ensures exists x: nat :: IsQuorumIndex(prs, x)
  {
    var top := Bounded(prs, prs.Keys);
    assert Reached(prs, 0) == prs.Keys;
    assert |prs.Keys| == |prs| >= 1;
    ClimbToQuorum(prs, 0, top);
  }
}
