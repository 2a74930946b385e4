# A verified model of etcd-mesos

etcd-mesos runs an etcd cluster on Mesos. This project models, in Dafny 4.11, the three parts of it that
are hardest to get right, and proves what they promise.

**Raft** (the vendored `etcd/raft`). `NodeSpec` says what one node does with one message, with a panic as
a possible outcome. `Protocol*` is the consensus protocol with its history of ballots, leaders and
acknowledgements, and its inductive invariants. `Refinement`, `LeaderRefinement` and `StepRefinement`
show that every handler is a sequence of protocol moves. `Cluster` defines runs of a fixed set of nodes
over a network that may lose, repeat and reorder messages, and `ClusterSafety` and `ClusterProgress`
hold the theorems about all runs. The imperative side is `Unstable`, `Storage` and `RaftLog` (two tiers
that stand for one log, `TwoTier`), `Inflights` (ring buffer and peer record), `QuorumPick` (the sorted
pick), `RaftNode` (the node that changes its fields, against `NodeSpec`), and `NodeLoop` (the Ready and
Advance loop, against `Delivery`, which proves exactly-once ordered delivery). `StepFacts` is what any
Step keeps for any message. `Handlers` says what each handler answers, records and sends, in terms of logs
and majorities alone; `CommitRule` and `Recovery` say over all runs what is committed, and that no state
of a group is one it cannot recover from. Sections 3.4 to 3.6 of Ongaro's thesis "Consensus: Bridging Theory and
Practice" are the reference.

**The scheduler.** `SchedulerSpec` is a state machine whose steps are the regions that the source runs
under a lock, split where the launcher drops it, with further attempts to synchronise going on beside
the last one. `OfferConservation`, `SchedulerSafety`, `LaunchBounds` (one session), `Tenure` (a whole
life, with inherited instances and registrations) and `Record` (the stored task ids that it writes and
reads back) hold the theorems about all its interleavings, `Histories` what its maps mean in terms of the
reports so far, `Founding` which instances are told to found a cluster, `Growth` that it gets there;
`Overruns` has, for each condition they need, a run that fails by that fault alone. `Scheduler` is the imperative
scheduler against those steps, `OfferCache` the offer cache with poppers that take from its queue at any time,
`Reseed` the choice of a new seed, `Config` and `Text` the text form of a node and its task id.

**The wire format** (the vendored protobuf package). `Varint` defines base 128 varints as the Protocol
Buffers encoding specification does and proves the round trip; `Wire` has the buffer over a shared
array, both decoders, and the length prefix that is fixed up in place.

Where a promise of the source is false, a failing run and the exact condition are given. A node's text
form is recovered exactly when its name and host are plain. The launch bound and the distinct slaves fail
over a scheduler's life; the invariant that keeps them is kept by a step, and by a whole run, exactly if
none of a list of faults occurs, and there is a run that fails by each fault alone. The stored record is
lost exactly by a write that leaves out a living instance or a first write that fails. An instance name
is fresh as long as no number runs over 64 bits, and two launches share a name exactly if the counter
stood at the same number. An instance is told to found a cluster
although another lives exactly if the scheduler is not synchronised and knows of none that runs. A leader panics at exactly three kinds of message. Entry terms start at 1, as
the bootstrap does; the term lookup of the log answers 0 outside the log.

## Model

| member | source | states |
|---|---|---|
| `ClusterSafety.StateMachineSafety` | Godeps/_workspace/src/github.com/coreos/etcd/raft/raft.go:483-511 | State machine safety: in every run, with any message lost, repeated or reordered, what any node has committed at one moment and what any node has committed at a later moment are the same entries as far as both reach. For one node this says that a committed entry is never replaced. |
| `ClusterSafety.LeadersComplete` | Godeps/_workspace/src/github.com/coreos/etcd/raft/raft.go:339-348 | Leader completeness: whatever a node has committed is in the log of every leader of a later term, at every moment of the run. |
| `ClusterSafety.NoPanic` | Godeps/_workspace/src/github.com/coreos/etcd/raft/log.go:76-103 | No event of a run (delivery of a sent message, an input from within, a restart) panics in any reachable state: neither a conflict with a committed entry, nor a gap in the log, nor a commit index past its end. Messages at which a leader panics are not events; ClusterSafety.PanicsExactly says which these are. |
| `ClusterSafety.PanicsExactly` | Godeps/_workspace/src/github.com/coreos/etcd/raft/raft.go:515-610 | In every state of every run, for every message of the network and every one from within (campaign, heartbeat tick, proposal, report about a snapshot or an unreachable peer): the node panics if and only if it leads and the message is the order to campaign, a proposal without entries, its own or passed on by another node, or a report about a node that is not a member. Of these reports the event loop filters those about an unreachable peer and lets those about a snapshot through. |
| `ClusterSafety.RunGoesOn` | Godeps/_workspace/src/github.com/coreos/etcd/raft/raft.go:483-511 | Every run can be continued by every event that can happen, so that the statements about runs are about all behaviours. |
| `ClusterSafety.RunStarts` | Godeps/_workspace/src/github.com/coreos/etcd/raft/node.go:145-178 | Every bootstrapped group of nodes, of any size, is the start of a run. |
| `ClusterSafety.LogMatching` | Godeps/_workspace/src/github.com/coreos/etcd/raft/log.go:116-127 | Log matching: two logs of any two nodes at any two moments that have the same term at an index are identical through that index. |
| `ClusterSafety.ElectionSafety` | Godeps/_workspace/src/github.com/coreos/etcd/raft/raft.go:450-481 | Election safety: two nodes that lead in the same term, at whatever moments, are the same node. |
| `ClusterSafety.MatchIsKept` | Godeps/_workspace/src/github.com/coreos/etcd/raft/raft.go:541-572 | As long as a peer stays in the term of a leader, its log equals the leader's through the leader's match index for it. |
| `ClusterProgress.NeverGoesBack` | Godeps/_workspace/src/github.com/coreos/etcd/raft/raft.go:350-365 | Along every run a node's term never decreases, a vote once cast in a term never changes in that term, and the commit index never decreases. |
| `ClusterProgress.AlwaysFine` | Godeps/_workspace/src/github.com/coreos/etcd/raft/progress.go:172-237 | In every reachable state, for every peer other than the node itself: in Replicate state its window is strictly rising, strictly between match and next, and not wider than its size; in the other states the window is empty. Also applied <= committed <= last index. |
| `Recovery.NeverStuck` | Godeps/_workspace/src/github.com/coreos/etcd/raft/raft.go:515-676 | A group is never stuck: from every state of every run, every majority can on its own, with nobody restarted and all others silent, elect one of its members and commit any proposal at each of its members. |
| `Recovery.LeaderNeverStuck` | Godeps/_workspace/src/github.com/coreos/etcd/raft/raft.go:515-610 | From every state of every run, a leader that nobody of a majority is ahead of can get any proposal committed at every member of that majority without a new election. |
| `Recovery.MayLead` | Godeps/_workspace/src/github.com/coreos/etcd/raft/raft.go:450-464 | From every state of every run, a node that does not lead and whose log is behind nobody's in a majority it is in can come to lead. |
| `Recovery.AnyoneMayLead` | Godeps/_workspace/src/github.com/coreos/etcd/raft/raft.go:664-669 | From every bootstrapped group, every node can come to lead, with the votes of any majority it is in. |
| `CommitRule.CommitRuleExactly` | Godeps/_workspace/src/github.com/coreos/etcd/raft/raft.go:339-348 | In every state of every run, an entry of a leader's own term is committed if and only if more than half of the match indices reach it. |
| `CommitRule.DecidedAtOnce` | Godeps/_workspace/src/github.com/coreos/etcd/raft/raft.go:630-640 | In every state of every run a candidate has neither a majority of votes nor a majority of refusals: an election is decided as soon as it can be. |
| `CommitRule.ProbesFall` | Godeps/_workspace/src/github.com/coreos/etcd/raft/raft.go:541-550 | In every run, a leader whose append is refused by a rejection that counts sends one append that asks strictly below the refused index. |
| `Handlers.VoteExactly` | Godeps/_workspace/src/github.com/coreos/etcd/raft/raft.go:664-669 | A vote is granted if and only if the term is new, or the node follows in it and has voted for nobody or for this candidate, and the candidate's log is not behind: a later last term, or the same and at least as long. Exactly one answer goes out that says so, the vote is recorded exactly then, and the log stays. |
| `Handlers.OldIsIgnored` | Godeps/_workspace/src/github.com/coreos/etcd/raft/raft.go:503-507 | A message of an earlier term changes nothing and is not answered. |
| `Handlers.ShortcutReply` | Godeps/_workspace/src/github.com/coreos/etcd/raft/raft.go:678-682 | An append before the commit index is answered with the commit index and leaves the log. |
| `Handlers.RefusedAppend` | Godeps/_workspace/src/github.com/coreos/etcd/raft/raft.go:686-690 | One whose previous entry the log does not have is refused, naming that index and the end of the log, and leaves the log. |
| `Handlers.TakenAppend` | Godeps/_workspace/src/github.com/coreos/etcd/raft/raft.go:684-685 | Any other is taken: the log keeps what it had before the first entry that it lacks or contradicts, followed by the entries from there on; the answer names the last entry given; the commit index becomes what the leader says, as far as the entries go, if that is more. The node panics exactly if this would rewrite a committed entry. |
| `Handlers.TakenIsHeld` | Godeps/_workspace/src/github.com/coreos/etcd/raft/log.go:76-92 | After it the log has the term of every given entry at its index, and the entry itself where it was not there. |
| `Handlers.HeartbeatTaken` | Godeps/_workspace/src/github.com/coreos/etcd/raft/raft.go:693-696 | A heartbeat raises the commit index to the one it carries, never lowers it, is answered once, and panics exactly if the index is past the end of the log. |
| `Handlers.BeatExactly` | Godeps/_workspace/src/github.com/coreos/etcd/raft/raft.go:329-337 | A leader's tick sends exactly one heartbeat to every other member, with the lower of its match index and the commit index, resumes each, and changes nothing else. |
| `Handlers.RejectionExactly` | Godeps/_workspace/src/github.com/coreos/etcd/raft/raft.go:541-550 | A rejection that counts: the record goes back as the back-off says, into Probe state, and exactly one append goes out that brings what is there, which asks below the rejected index unless that is 0. |
| `Handlers.StaleRejection` | Godeps/_workspace/src/github.com/coreos/etcd/raft/progress.go:119-141 | A rejection that does not count changes nothing and sends nothing. |
| `Handlers.AcknowledgementExactly` | Godeps/_workspace/src/github.com/coreos/etcd/raft/raft.go:551-573 | An acknowledgement: match and next rise, the state moves on, the commit index becomes the greatest that it should be; if it rose, every other member that is not paused is sent what comes next for it, with the new commit index, else the peer itself is if it had been paused. |
| `Handlers.HeartbeatAnswered` | Godeps/_workspace/src/github.com/coreos/etcd/raft/raft.go:574-581 | The answer to a heartbeat frees the oldest place of a full window, and a peer not known to have everything is sent what comes next for it. |
| `Handlers.CommitExactly` | Godeps/_workspace/src/github.com/coreos/etcd/raft/raft.go:339-348 | For every leader in order: what a majority of match indices has reached and is of its term is committed, and nothing else. |
| `Handlers.ProposalExactly` | Godeps/_workspace/src/github.com/coreos/etcd/raft/raft.go:521-540 | A proposal to a leader: its payloads go behind the log at the leader's term, what is then ripe is committed, and every other member that is not paused is sent what comes next for it. |
| `Handlers.ProposalPassedOn` | Godeps/_workspace/src/github.com/coreos/etcd/raft/raft.go:643-651 | Any other node passes a proposal on unchanged to the leader it knows, or drops it if it knows none. |
| `Handlers.CampaignExactly` | Godeps/_workspace/src/github.com/coreos/etcd/raft/raft.go:450-464 | The order to campaign: the next term, the own vote, and a request with the end of the log to every other member; or, alone, leadership at once with an empty entry committed. |
| `Handlers.TallyExactly` | Godeps/_workspace/src/github.com/coreos/etcd/raft/raft.go:628-640 | An answer to a candidate: it leads, with an empty entry of its term sent to all, if and only if the votes are now a majority; it follows nobody if and only if the refusals are; else it counts on. |
| `Handlers.UnreachableExactly` | Godeps/_workspace/src/github.com/coreos/etcd/raft/raft.go:602-609 | A replicating peer that is unreachable is probed from right behind its match index; any other record stays. |
| `Handlers.SnapStatusExactly` | Godeps/_workspace/src/github.com/coreos/etcd/raft/raft.go:586-601 | After a snapshot the peer is probed from behind it if it arrived, else from behind the match index, and paused until it is heard from. |
| `Handlers.SnapshotSent` | Godeps/_workspace/src/github.com/coreos/etcd/raft/raft.go:262-278 | A peer whose next entry is compacted is sent the snapshot, once, and waits for it. |
| `Handlers.SnapshotTaken` | Godeps/_workspace/src/github.com/coreos/etcd/raft/raft.go:698-740 | A snapshot: one that tells nothing new, or that the log already has, leaves the log; any other replaces log and members. The commit index becomes the snapshot's if that is more, and exactly one answer names it. |
| `Handlers.SnapshotArrived` | Godeps/_workspace/src/github.com/coreos/etcd/raft/raft.go:551-562 | An acknowledgement that covers the pending snapshot puts the peer into Probe state right behind it. |
| `ProgressSpec.BackOffExactly` | Godeps/_workspace/src/github.com/coreos/etcd/raft/progress.go:119-141 | For every record and rejection: whether it counts, and the record after it; next falls strictly unless it is 1. |
| `LogView.EntrySizeIsLength` | Godeps/_workspace/src/github.com/coreos/etcd/raft/raftpb/raft.pb.go:555-569 | The size used by the limits is the length of the entry's encoding. |
| `LogView.EntriesToldApart` | Godeps/_workspace/src/github.com/coreos/etcd/raft/raftpb/raft.pb.go:265-289 | Different entries within 64 bits have different encodings. |
| `Protocol.LeaderCompleteness` | Godeps/_workspace/src/github.com/coreos/etcd/raft/raft.go:664-669 | The induction behind leader completeness: an index acknowledged by a majority in one term is in the election log of every later leader, because voters compare logs. |
| `Protocol.CommittedAgree` | Godeps/_workspace/src/github.com/coreos/etcd/raft/log.go:272-278 | Two logs agree as far as both are committed, given the invariants of the protocol. |
| `ProtocolElections.WinHistoryOK` | Godeps/_workspace/src/github.com/coreos/etcd/raft/raft.go:422-448 | Becoming leader with a majority of votes keeps all invariants about ballots, election logs and acknowledgements; nobody else has won the term. |
| `ProtocolReplication.ProposeHistoryOK` | Godeps/_workspace/src/github.com/coreos/etcd/raft/raft.go:367-376 | A leader's append to its own log keeps the invariants. |
| `ProtocolReplication.AcceptHistoryOK` | Godeps/_workspace/src/github.com/coreos/etcd/raft/raft.go:678-691 | A follower's acknowledgement keeps the invariants. |
| `StepRefinement.NetStepMoves` | Godeps/_workspace/src/github.com/coreos/etcd/raft/raft.go:483-511 | Handling any message of the network, in any role, is a sequence of protocol moves: the new node state and everything sent are explained by a longer history. |
| `StepRefinement.LocalStepMoves` | Godeps/_workspace/src/github.com/coreos/etcd/raft/raft.go:379-398 | So is handling every message from within at which the node does not panic. |
| `StepRefinement.TripsPanic` | Godeps/_workspace/src/github.com/coreos/etcd/raft/raft.go:408-412 | A leader does panic at the messages that PanicsExactly names, in whatever state. |
| `StepRefinement.ProposalMoves` | Godeps/_workspace/src/github.com/coreos/etcd/raft/raft.go:643-650 | So is handling a proposal, made here or passed on, with or without entries, unless a leader is given none. |
| `StepRefinement.RestartMoves` | Godeps/_workspace/src/github.com/coreos/etcd/raft/node.go:186-193 | So is a restart with everything persisted. |
| `LogRefinement.MaybeAppendTakesOver` | Godeps/_workspace/src/github.com/coreos/etcd/raft/log.go:76-92 | On a follower whose committed prefix is the leader's, taking a leader's entries never panics; if they are taken, the log becomes the leader's as far as they reach and nothing behind it is lost unless it conflicted. |
| `LogRefinement.FindConflictIs` | Godeps/_workspace/src/github.com/coreos/etcd/raft/log.go:116-127 | The conflict found is the first entry whose term differs from the log's, and none is found exactly when all match. |
| `Refinement.VoteMoves` | Godeps/_workspace/src/github.com/coreos/etcd/raft/raft.go:664-669 | Granting a vote to a candidate whose log is at least as up to date is a protocol move: the ballot is recorded with the voter's own log, once per term. |
| `LeaderRefinement.MaybeCommitMoves` | Godeps/_workspace/src/github.com/coreos/etcd/raft/raft.go:339-348 | Committing the quorum index is a protocol move: what it commits is covered by a majority's acknowledgement of an entry of the leader's own term. |
| `LeaderRefinement.HeartbeatMessageOK` | Godeps/_workspace/src/github.com/coreos/etcd/raft/raft.go:301-315 | A heartbeat never carries a commit index past what the peer has acknowledged. |
| `LeaderRefinement.AppMessageOK` | Godeps/_workspace/src/github.com/coreos/etcd/raft/raft.go:251-298 | Every append message carries a stretch of the leader's log, the right term before it, and a commit index that the leader has. |
| `StepFacts.StepAdvances` | Godeps/_workspace/src/github.com/coreos/etcd/raft/raft.go:483-511 | For any node in order and any message with numbered entries, known sender or not: Step never lets the term go back or a vote change within its term, keeps committed entries in place or covers them by a snapshot beyond them, and keeps every peer's window in order. |
| `StepFacts.MaybeAppendKeeps` | Godeps/_workspace/src/github.com/coreos/etcd/raft/log.go:76-92 | Whatever entries arrive, what is committed stays as it is. |
| `QuorumPick.PickQuorumIndex` | Godeps/_workspace/src/github.com/coreos/etcd/raft/raft.go:339-348 | The match index at position q-1 of the descending order is the greatest index that a majority has reached, for every cluster size. |
| `QuorumPick.CountDescending` | Godeps/_workspace/src/github.com/coreos/etcd/raft/raft.go:344-346 | In a descending sequence at least q elements reach y exactly when the q-th does. |
| `NodeSpec.QuorumIndexExists` | Godeps/_workspace/src/github.com/coreos/etcd/raft/raft.go:227-227 | Such an index exists for every non-empty membership. |
| `RaftLogs.RaftLog.constructor` | Godeps/_workspace/src/github.com/coreos/etcd/raft/log.go:45-68 | A log opened from storage stands for the stored entries behind the dummy, with nothing unstable. |
| `RaftLogs.RaftLog.FirstIndex` | Godeps/_workspace/src/github.com/coreos/etcd/raft/log.go:158-167 | The first index of the one log. |
| `RaftLogs.RaftLog.LastIndex` | Godeps/_workspace/src/github.com/coreos/etcd/raft/log.go:169-178 | The last index of the one log. |
| `RaftLogs.RaftLog.Term` | Godeps/_workspace/src/github.com/coreos/etcd/raft/log.go:212-232 | The lookup through snapshot, unstable entries and storage never fails and finds the term the one log has, or zero outside it. |
| `RaftLogs.RaftLog.IsUpToDate` | Godeps/_workspace/src/github.com/coreos/etcd/raft/log.go:260-262 | The comparison with the last entry of the one log. |
| `RaftLogs.RaftLog.FindConflict` | Godeps/_workspace/src/github.com/coreos/etcd/raft/log.go:116-127 | The scan agrees with its definition on the one log. |
| `RaftLogs.RaftLog.CommitTo` | Godeps/_workspace/src/github.com/coreos/etcd/raft/log.go:180-188 | The commit index rises and never falls; the source panics exactly where the specification does. |
| `RaftLogs.RaftLog.AppliedTo` | Godeps/_workspace/src/github.com/coreos/etcd/raft/log.go:190-198 | The applied index moves within applied and committed. |
| `RaftLogs.RaftLog.Append` | Godeps/_workspace/src/github.com/coreos/etcd/raft/log.go:94-103 | Truncation after the entry before the new ones, then append, on the one log. |
| `RaftLogs.RaftLog.MaybeAppend` | Godeps/_workspace/src/github.com/coreos/etcd/raft/log.go:76-92 | Taken or rejected as specified on the one log, with the last new index. |
| `RaftLogs.RaftLog.MaybeCommit` | Godeps/_workspace/src/github.com/coreos/etcd/raft/log.go:272-278 | Commits exactly when the index is new and its entry is of the given term. |
| `RaftLogs.RaftLog.Restore` | Godeps/_workspace/src/github.com/coreos/etcd/raft/log.go:280-285 | The one log becomes the snapshot with nothing behind it. |
| `RaftLogs.RaftLog.Slice` | Godeps/_workspace/src/github.com/coreos/etcd/raft/log.go:287-340 | The size-limited slice read from both tiers is the size-limited slice of the one log; a compacted start is an error. |
| `RaftLogs.RaftLog.Entries` | Godeps/_workspace/src/github.com/coreos/etcd/raft/log.go:234-239 | Everything from an index on, cut at the limit; empty past the end. |
| `RaftLogs.RaftLog.NextEnts` | Godeps/_workspace/src/github.com/coreos/etcd/raft/log.go:139-149 | Exactly the entries that are committed and not applied, beyond a snapshot. |
| `RaftLogs.RaftLog.StableTo` | Godeps/_workspace/src/github.com/coreos/etcd/raft/log_unstable.go:77-89 | Trimming what has been written changes nothing in the one log. |
| `RaftLogs.RaftLog.Forget` | Godeps/_workspace/src/github.com/coreos/etcd/raft/node.go:334-343 | Trimming the entries and dropping the snapshot of a stored batch changes nothing in the one log. |
| `TwoTier.EntryAt` | Godeps/_workspace/src/github.com/coreos/etcd/raft/log.go:212-232 | Where the entry at a position is found: in the unstable part from its offset on, else in storage. |
| `TwoTier.TruncatedView` | Godeps/_workspace/src/github.com/coreos/etcd/raft/log_unstable.go:103-123 | All three cases of truncateAndAppend are truncation and append on the one log, also below the storage tail and above a compaction. |
| `TwoTier.ForgottenView` | Godeps/_workspace/src/github.com/coreos/etcd/raft/log_unstable.go:77-95 | Forgetting what is in storage keeps the tiers consistent and the log unchanged. |
| `TwoTier.StoreAppendView` | Godeps/_workspace/src/github.com/coreos/etcd/raft/storage.go:219-249 | Writing entries to storage does not change the one log. |
| `TwoTier.StoreAppendWrites` | Godeps/_workspace/src/github.com/coreos/etcd/raft/storage.go:219-249 | After the unstable entries have been written they count as written. |
| `TwoTier.SavedTiers` | Godeps/_workspace/src/github.com/coreos/etcd/raft/storage.go:158-166 | Once the pending snapshot and then the unstable entries have been written to storage, the log is the same and all of it may be forgotten in the unstable part. |
| `TwoTier.SavedIsStored` | Godeps/_workspace/src/github.com/coreos/etcd/raft/storage.go:219-249 | After the unstable entries have been written, storage ends where the log did and holds it as far back as it reaches. |
| `TwoTier.StoreCompactView` | Godeps/_workspace/src/github.com/coreos/etcd/raft/storage.go:196-215 | Compacting storage moves the base of the one log and nothing else, also into the region of unstable entries. |
| `TwoTier.LimitAcross` | Godeps/_workspace/src/github.com/coreos/etcd/raft/log.go:300-312 | A size limit that already cuts the stored part cuts the whole slice at the same place. |
| `TwoTier.StillWritten` | Godeps/_workspace/src/github.com/coreos/etcd/raft/log_unstable.go:77-89 | Comparing one term is enough to know that all unstable entries up to there have been written, where logs that share a term at an index are equal below it. |
| `NodeLoops.TermCheckSuffices` | Godeps/_workspace/src/github.com/coreos/etcd/raft/log_unstable.go:77-89 | In every run of a cluster that one comparison is enough, whatever was truncated and rewritten between storing a batch and acknowledging it. |
| `NodeLoops.AcknowledgeLater` | Godeps/_workspace/src/github.com/coreos/etcd/raft/node.go:317-343 | A batch may be written and acknowledged at any later moment of a cluster run, whatever was received, truncated and rewritten in between: writing it leaves the log as it is, and all that the acknowledgement lets go is in storage. |
| `UnstableLog.Unstable.MaybeLastIndex` | Godeps/_workspace/src/github.com/coreos/etcd/raft/log_unstable.go:44-52 | The last index this part knows; none exactly if it holds neither entries nor a snapshot. |
| `UnstableLog.Unstable.MaybeTerm` | Godeps/_workspace/src/github.com/coreos/etcd/raft/log_unstable.go:56-75 | The term of a position, if this part knows it, and exactly when it does not. |
| `UnstableLog.Unstable.StableTo` | Godeps/_workspace/src/github.com/coreos/etcd/raft/log_unstable.go:77-89 | Entries are dropped only if the one at the given index still has the given term. |
| `UnstableLog.Unstable.StableSnapTo` | Godeps/_workspace/src/github.com/coreos/etcd/raft/log_unstable.go:91-95 | The snapshot is dropped only if it is the one at the given index. |
| `UnstableLog.Unstable.Restore` | Godeps/_workspace/src/github.com/coreos/etcd/raft/log_unstable.go:97-101 | The part becomes the snapshot alone. |
| `UnstableLog.Unstable.TruncateAndAppend` | Godeps/_workspace/src/github.com/coreos/etcd/raft/log_unstable.go:103-123 | Truncation and append on the one log that this part forms with storage. |
| `Storage.MemoryStorage.Entries` | Godeps/_workspace/src/github.com/coreos/etcd/raft/storage.go:97-114 | A stretch of the stored entries cut at the limit, or the error that applies. |
| `Storage.MemoryStorage.SetHardState` | Godeps/_workspace/src/github.com/coreos/etcd/raft/storage.go:90-94 | The hard state is replaced, the rest kept. |
| `Storage.MemoryStorage.ApplySnapshot` | Godeps/_workspace/src/github.com/coreos/etcd/raft/storage.go:158-166 | Storage is left with the snapshot and the dummy at its position. |
| `Storage.MemoryStorage.CreateSnapshot` | Godeps/_workspace/src/github.com/coreos/etcd/raft/storage.go:172-192 | A snapshot at an index that is stored and newer than the last, or an error and no change. |
| `Storage.MemoryStorage.Compact` | Godeps/_workspace/src/github.com/coreos/etcd/raft/storage.go:196-215 | Entries up to the index give way to a dummy with its term; a compacted index is an error and changes nothing. |
| `Storage.MemoryStorage.Append` | Godeps/_workspace/src/github.com/coreos/etcd/raft/storage.go:219-249 | Everything from the first new position on is replaced; what is already compacted is skipped. |
| `Storage.LimitEntries` | Godeps/_workspace/src/github.com/coreos/etcd/raft/util.go:97-110 | The longest prefix within the limit, but at least one entry. |
| `LogView.LimitSizeIsLongest` | Godeps/_workspace/src/github.com/coreos/etcd/raft/util.go:97-110 | That prefix is characterised by its length: it fits and one more entry would not. |
| `Inflight.Inflights.constructor` | Godeps/_workspace/src/github.com/coreos/etcd/raft/progress.go:183-188 | An empty queue of the given size. |
| `Inflight.Inflights.Add` | Godeps/_workspace/src/github.com/coreos/etcd/raft/progress.go:191-201 | Adds at the end of the queue, going round the end of the buffer. |
| `Inflight.Inflights.FreeTo` | Godeps/_workspace/src/github.com/coreos/etcd/raft/progress.go:204-224 | Removes the leading indices up to the argument, across the end of the buffer. |
| `Inflight.Inflights.FreeFirstOne` | Godeps/_workspace/src/github.com/coreos/etcd/raft/progress.go:226-226 | Frees up to the oldest index. |
| `Inflight.Inflights.Reset` | Godeps/_workspace/src/github.com/coreos/etcd/raft/progress.go:234-237 | Empties the queue. |
| `ProgressSpec.FreeToExact` | Godeps/_workspace/src/github.com/coreos/etcd/raft/progress.go:204-224 | On a rising window exactly the indices up to the argument go, and the order stays. |
| `ProgressSpec.FreeFirstOne` | Godeps/_workspace/src/github.com/coreos/etcd/raft/progress.go:226-226 | On a rising window, freeing the oldest index removes that one alone. |
| `ProgressSpec.AckKeepsWindow` | Godeps/_workspace/src/github.com/coreos/etcd/raft/raft.go:553-567 | Taking an acknowledgement keeps the window strictly between match and next. |
| `Inflight.ProgressRecord.BecomeProbe` | Godeps/_workspace/src/github.com/coreos/etcd/raft/progress.go:76-88 | The transition to probing, after a snapshot or not. |
| `Inflight.ProgressRecord.BecomeReplicate` | Godeps/_workspace/src/github.com/coreos/etcd/raft/progress.go:90-93 | The transition to replicating. |
| `Inflight.ProgressRecord.BecomeSnapshot` | Godeps/_workspace/src/github.com/coreos/etcd/raft/progress.go:95-98 | The transition to waiting for a snapshot. |
| `Inflight.ProgressRecord.MaybeUpdate` | Godeps/_workspace/src/github.com/coreos/etcd/raft/progress.go:102-113 | Match and next rise to an acknowledged index; whether match rose. |
| `Inflight.ProgressRecord.MaybeDecrTo` | Godeps/_workspace/src/github.com/coreos/etcd/raft/progress.go:119-141 | Exactly when a rejection counts; a stale one changes nothing; one in Replicate state takes next back to right behind match; any other takes it to the rejected index or behind the end that the peer names, whichever is lower, never below 1, and resumes sending. |
| `Inflight.ProgressRecord.IsPaused` | Godeps/_workspace/src/github.com/coreos/etcd/raft/progress.go:147-158 | Whether the peer is to be sent nothing, in each state. |
| `Inflight.ProgressRecord.Sent` | Godeps/_workspace/src/github.com/coreos/etcd/raft/raft.go:280-293 | After a send, the last index joins a window that had room, or a probed peer is paused. |
| `RaftNodes.RaftNode.constructor` | Godeps/_workspace/src/github.com/coreos/etcd/raft/raft.go:168-221 | A node opened from storage has the stored log, hard state and members, and follows nobody. |
| `RaftNodes.OpenedIsRestarted` | Godeps/_workspace/src/github.com/coreos/etcd/raft/node.go:186-193 | A node whose log, hard state and members are in storage comes up as the restart step of a cluster says. |
| `RaftNodes.RaftNode.Bootstrap` | Godeps/_workspace/src/github.com/coreos/etcd/raft/node.go:145-178 | The first start leaves the node in the initial state of a cluster: one committed entry per peer, at term 1, none applied. |
| `RaftNodes.RaftNode.SendAppend` | Godeps/_workspace/src/github.com/coreos/etcd/raft/raft.go:251-298 | The same append or snapshot message and the same change of the peer's record as specified. |
| `RaftNodes.RaftNode.BcastAppend` | Godeps/_workspace/src/github.com/coreos/etcd/raft/raft.go:319-326 | The loop over peers, in any order, sends each its message once and changes each record separately. |
| `RaftNodes.RaftNode.BcastHeartbeat` | Godeps/_workspace/src/github.com/coreos/etcd/raft/raft.go:329-337 | One heartbeat to each peer, each resumed. |
| `RaftNodes.RaftNode.MaybeCommit` | Godeps/_workspace/src/github.com/coreos/etcd/raft/raft.go:339-348 | The fields after it are those of the specified step, and whether it committed. Which index that is: Handlers.CommitExactly; in every state of every run: CommitRule.CommitRuleExactly. |
| `RaftNodes.RaftNode.Reset` | Godeps/_workspace/src/github.com/coreos/etcd/raft/raft.go:350-365 | Everything a change of role resets, and nothing else. |
| `RaftNodes.RaftNode.AppendEntry` | Godeps/_workspace/src/github.com/coreos/etcd/raft/raft.go:367-376 | Entries are stamped and numbered behind the log, the own record follows, and commitment is tried. |
| `RaftNodes.RaftNode.BecomeLeader` | Godeps/_workspace/src/github.com/coreos/etcd/raft/raft.go:422-448 | A candidate becomes leader with an empty entry of its term. |
| `RaftNodes.RaftNode.Poll` | Godeps/_workspace/src/github.com/coreos/etcd/raft/raft.go:466-481 | The first vote of each sender counts; the granted ones are counted exactly. |
| `RaftNodes.RaftNode.Campaign` | Godeps/_workspace/src/github.com/coreos/etcd/raft/raft.go:450-464 | A new term, the own vote, and either leadership at once or a vote request to every other peer. |
| `RaftNodes.RaftNode.HandleAppendEntries` | Godeps/_workspace/src/github.com/coreos/etcd/raft/raft.go:678-691 | The reply and the log after it are those of the specified step. What these are in the three cases: Handlers.ShortcutReply, Handlers.RefusedAppend, Handlers.TakenAppend. |
| `RaftNodes.RaftNode.HandleHeartbeat` | Godeps/_workspace/src/github.com/coreos/etcd/raft/raft.go:693-696 | The commit index and the reply, as specified. |
| `RaftNodes.RaftNode.HandleSnapshot` | Godeps/_workspace/src/github.com/coreos/etcd/raft/raft.go:698-709 | Ignored, fast-forwarded or restored, with the matching reply. |
| `RaftNodes.RaftNode.Restore` | Godeps/_workspace/src/github.com/coreos/etcd/raft/raft.go:713-740 | Whether a snapshot is restored, and the log, commit index and members after it. |
| `RaftNodes.RaftNode.LeaderAccepted` | Godeps/_workspace/src/github.com/coreos/etcd/raft/raft.go:551-573 | What a leader does with an acknowledgement, as specified. |
| `RaftNodes.RaftNode.LeaderRejected` | Godeps/_workspace/src/github.com/coreos/etcd/raft/raft.go:541-550 | What a leader does with a rejection, as specified. |
| `RaftNodes.RaftNode.StepLeader` | Godeps/_workspace/src/github.com/coreos/etcd/raft/raft.go:515-610 | The leader's handling of every message is the specified one. |
| `RaftNodes.RaftNode.StepCandidate` | Godeps/_workspace/src/github.com/coreos/etcd/raft/raft.go:612-641 | So is the candidate's. |
| `RaftNodes.RaftNode.StepFollower` | Godeps/_workspace/src/github.com/coreos/etcd/raft/raft.go:643-676 | So is the follower's. When a vote is granted: Handlers.VoteExactly. |
| `RaftNodes.RaftNode.Step` | Godeps/_workspace/src/github.com/coreos/etcd/raft/raft.go:483-511 | Running on the two-tier log and the fields of a node, Step reaches the state that the specification of Step says and sends its messages, each once. |
| `Delivery.ExactlyOnce` | Godeps/_workspace/src/github.com/coreos/etcd/raft/node.go:235-351 | In every run of steps, batches, acknowledgements and compactions: the items handed to the application have no gap, no repeat and no reordering (a snapshot only leads ahead), the entries are those of the log, and applied <= delivered <= committed <= last index. |
| `Delivery.LoopNeverPanics` | Godeps/_workspace/src/github.com/coreos/etcd/raft/node.go:334-343 | The loop itself never panics, and each batch takes the application exactly to what is committed. |
| `Delivery.DeliveredIsLog` | Godeps/_workspace/src/github.com/coreos/etcd/raft/log.go:139-149 | With no snapshot in between, what was delivered is one stretch of the log. |
| `Delivery.EventKeeps` | Godeps/_workspace/src/github.com/coreos/etcd/raft/node.go:276-343 | Each event keeps the loop's bookkeeping right. |
| `NodeLoops.NodeLoop.Receive` | Godeps/_workspace/src/github.com/coreos/etcd/raft/node.go:279-286 | A message is dropped if it is a response from a stranger, else stepped; the bookkeeping stays right. |
| `NodeLoops.NodeLoop.NewReady` | Godeps/_workspace/src/github.com/coreos/etcd/raft/node.go:447-463 | A batch: unstable entries, unapplied committed entries, messages, and the soft state, hard state and snapshot if they are new. |
| `NodeLoops.NodeLoop.TakeReady` | Godeps/_workspace/src/github.com/coreos/etcd/raft/node.go:317-333 | Handing over a batch extends the delivered stream by it and remembers what it contained; a soft state is handed over exactly when it has changed, so that the application knows the current one. |
| `NodeLoops.NodeLoop.Advance` | Godeps/_workspace/src/github.com/coreos/etcd/raft/node.go:334-343 | Once the batch is stored, acknowledging it moves applied up, keeps the log, forgets exactly what was stored, and is the specified step. |
| `NodeLoops.NodeLoop.Serve` | Godeps/_workspace/src/github.com/coreos/etcd/raft/doc.go:35-59 | One whole turn as the package asks for it (take a batch, write hard state, snapshot and entries, acknowledge), with nothing assumed about what was stored: the stream grows by the batch, the log is unchanged, nothing is left unstable, storage alone holds the log, and its hard state follows the node. This is what RaftNodes.OpenedIsRestarted needs for a restart. |
| `NodeLoops.NodeLoop.Write` | Godeps/_workspace/src/github.com/coreos/etcd/raft/rafttest/node.go:56-60 | What storage holds after a batch with hard state, snapshot and entries has been written. |
| `NodeLoops.SameDeliveries` | Godeps/_workspace/src/github.com/coreos/etcd/raft/node.go:235-351 | In every run of a cluster, entries that any two nodes have handed to their applications at the same position are equal. |
| `NodeLoops.OpenedStarts` | Godeps/_workspace/src/github.com/coreos/etcd/raft/node.go:186-193 | A node just opened from storage may enter the loop. |
| `OfferCaches.OfferCache.Push` | offercache/offercache.go:45-72 | An offer with a new id is refused only if the set is full or, in single-instance mode, has an offer from the same slave, whatever poppers do meanwhile; every cached offer still waits exactly once. |
| `OfferCaches.OfferCache.Enqueue` | offercache/offercache.go:59-68 | The second try to send always succeeds. |
| `OfferCaches.OfferCache.Gc` | offercache/offercache.go:105-118 | After a pass over the queue, with poppers taking from it at any point, a slot is free; sending an offer back never finds the queue full. |
| `OfferCaches.FewerThanSet` | offercache/offercache.go:105-118 | The pigeonhole argument: valid offers that wait are fewer than the offers of the set while one of those is not queued yet. |
| `OfferCaches.OfferCache.Receive` | offercache/offercache.go:83-83 | Taking the oldest offer moves it from the queue to the popper's hands. |
| `OfferCaches.OfferCache.Claim` | offercache/offercache.go:84-90 | An offer taken from the queue may be used exactly if it is still in the set, and then leaves it. |
| `OfferCaches.OfferCache.Pop` | offercache/offercache.go:82-95 | The oldest valid offer is returned, once, and stale ones before it are dropped. |
| `OfferCaches.OfferCache.Rescind` | offercache/offercache.go:74-80 | Whether the offer was there; it is gone. |
| `OfferConservation.OneFateEach` | scheduler/scheduler.go:225-314 | In every interleaving of offers, timers, rescinds and launches, a received offer is in exactly one place or has met exactly one fate, and an offer never received has met none. |
| `OfferConservation.FateIsFinal` | scheduler/scheduler.go:867-941 | A fate once met is never met again and never exchanged for another. |
| `OfferConservation.StepConserves` | scheduler/scheduler.go:425-431 | Every step keeps the count of places at one for each received offer. |
| `Histories.RunningIsReported` | scheduler/scheduler.go:316-423 | In every run a node counts as running exactly if it has been reported running since the last registration and not reported ended since. |
| `Histories.TasksAreReported` | scheduler/scheduler.go:316-423 | In every run a task is on record exactly if it has been reported running and not ended since. |
| `Histories.HeardIsReported` | scheduler/scheduler.go:337-340 | In every run a task id counts as heard from exactly if a readable report about it has come in since the last registration. |
| `Histories.PendingIsLaunched` | scheduler/scheduler.go:908-997 | In every run a launch is pending exactly if it was made and its instance has been reported neither running nor ended since. |
| `Histories.ImmutableExactlyBy` | scheduler/scheduler.go:341-379 | A mutable scheduler becomes immutable exactly by a disconnection or by the report of an end after which no node is known to run. |
| `Histories.RecordMeans` | scheduler/scheduler.go:380-397 | A report enters a running task with its slave into the record to reconcile, takes out an ended one, and touches no other. |
| `Histories.RecordExactly` | scheduler/scheduler.go:499-530 | For every event: what the record and the store are after it; the store is written by nothing but a report that an instance runs. |
| `OfferConservation.CachedAreTimed` | scheduler/scheduler.go:296-305 | In every run every cached offer has a timer, and when it fires the offer leaves the cache and is declined. |
| `Founding.LaunchTells` | scheduler/scheduler.go:908-927 | In every run every launch tells its instance the host, slave and ports of the offer, and to found a cluster ("new") exactly if no node is known to run. |
| `Founding.FoundsExactly` | scheduler/scheduler.go:908-914 | Over a whole life without faults: "new" is told exactly when no instance lives, if and only if the scheduler is synchronised or nothing lives or something is known to run. |
| `Founding.OneFounder` | scheduler/scheduler.go:908-914 | Over such a life, if that condition holds at every launch, at most one instance that lives or is being launched was told to found a cluster. |
| `Founding.FoundsTwice` | scheduler/scheduler.go:499-512 | Without it that fails, with nothing else at fault: from every new scheduler that inherits one instance and wants more there is a run after which two live that were both told to found a cluster, since a launcher was past its last check when the scheduler registered again. |
| `Growth.GrowsToDesired` | scheduler/scheduler.go:849-997 | From every new scheduler that finds nothing, with one offer from a different slave for each instance wanted, there is a run without faults after which exactly that many live and are known to run. |
| `SchedulerSafety.AtMostOnePending` | scheduler/scheduler.go:761-785 | At most one launch is ever pending, in every interleaving, although the lock is dropped between check and commit. |
| `Tenures.TenureStaysInBounds` | scheduler/scheduler.go:499-615 | Over the whole life of a scheduler, from its creation with instances and the record of an earlier one about and through any number of registrations: known running and pending instances together never exceed the desired number, nor do those that really live, and in single-instance mode they are all on different slaves. This holds of every run without the faults of Tenures.FairBut, which TenureStepExactly shows to be exactly those that matter. |
| `Tenures.TenureStepExactly` | scheduler/scheduler.go:316-423 | Every event with truthful reports keeps the invariant behind the bound if and only if none of these happens: a number runs over; a registration finds the scheduler mutable; or, before it is synchronised, what it reads or an earlier attempt puts in place does not mention a living instance not accounted for, such an instance reports before it runs, the launcher passes a slave with an instance on it that is not known to run, a reseeding ends, or an earlier attempt ends. |
| `Tenures.TenureExactly` | scheduler/scheduler.go:499-615 | Over whole runs: from a new scheduler and with truthful reports, the invariant holds in every state if and only if no event is one of these. |
| `Tenures.LoadExactly` | scheduler/scheduler.go:514-530 | Reading the store and taking what was read, in the last attempt or an earlier one, keeps the invariant if and only if what is read, or what replaces what is waited for, mentions every living instance not accounted for. |
| `Records.RecordStepExactly` | scheduler/scheduler.go:380-397 | The record of task ids, which the scheduler writes itself, stays complete if and only if the event is not a report of a running instance that is written while another living one is not in mind, nor the first report of a launched instance that cannot be written. |
| `Records.FirstReportExactly` | scheduler/scheduler.go:499-512 | While the scheduler has nothing in mind, as after a registration, the first report of a running instance loses the record if and only if another instance lives. |
| `Records.CarefulIsTenure` | scheduler/scheduler.go:380-397 | A scheduler that finds the record complete and never loses it stays within bounds, with nothing assumed of what it reads back. |
| `Tenures.DoneUnsynced` | scheduler/scheduler.go:514-575 | At the end of a synchronisation the scheduler is in a session again: every living instance, inherited or not, is running or pending in its books. |
| `Tenures.SyncDoneExactly` | scheduler/scheduler.go:514-575 | Of whatever instances have been heard so far: the end of the synchronisation leads to a session if and only if every living instance is running or pending. |
| `Tenures.FreshTenure` | scheduler/scheduler.go:131-174 | A new scheduler starts that way, if it inherits no more instances than it wants. |
| `Overruns.RegistrationOverruns` | scheduler/scheduler.go:499-512 | A registration that finds the scheduler mutable breaks the bound: from every new scheduler whose instances are all there and on record, there is a run with no other fault in which it hears from all of them, registers again, launches another and ends with more than the desired number. |
| `Overruns.StartingOverruns` | scheduler/scheduler.go:337-380 | So do TASK_STARTING reports while it synchronises, which count as heard but are not entered: from every new scheduler whose instances are all there, there is a run with no other fault to more than the desired number. |
| `Overruns.MissingOverruns` | scheduler/scheduler.go:514-575 | So does a store that does not mention the instances. |
| `Overruns.OverwriteOverruns` | scheduler/scheduler.go:380-397 | So does the scheduler itself where it was given a complete record: one instance reports right after the registration, that one alone is written down and read back, and nobody waits for the others. |
| `Overruns.OutdatedOverruns` | scheduler/scheduler.go:514-530 | So does an earlier attempt that puts in place what it read before an instance was launched. |
| `Overruns.PhantomOverruns` | scheduler/scheduler.go:380-404 | So does a report that an instance runs which does not exist. |
| `Overruns.ReseedOverruns` | scheduler/scheduler.go:1060-1078 | So does a reseeding that ends before the synchronisation. |
| `Overruns.StaleOverruns` | scheduler/scheduler.go:499-575 | So does an earlier attempt to synchronise that ends after a later registration, although its store was complete and it had heard from everyone. |
| `Overruns.MisjudgedShares` | scheduler/scheduler.go:867-904 | A launcher that looks at the slave of its offer while the scheduler has forgotten its instances puts two on one slave in single-instance mode, with no other fault. |
| `LaunchBounds.LaunchesStayInBounds` | scheduler/scheduler.go:849-997 | Within a session in which Mesos reports RUNNING only for living instances, running and pending instances together never exceed the desired number and, in single-instance mode, are on different slaves. |
| `LaunchBounds.StepSession` | scheduler/scheduler.go:316-423 | Every event of a session keeps that, in particular a status that arrives between the launcher's check and its commit. |
| `LaunchBounds.RegisterKeepsExactly` | scheduler/scheduler.go:499-512 | A registration, which forgets the running nodes, keeps the session if and only if nothing lives but a launch that is still pending. |
| `SchedulerSafety.SafeStart` | scheduler/scheduler.go:514-615 | Whenever the attempt of the last registration makes the scheduler mutable, every task id it loaded from the store has been heard from, whatever statuses came in between, unless an earlier attempt overwrote the record with less. |
| `SchedulerSafety.StepKeepsSync` | scheduler/scheduler.go:514-593 | What is loaded stays on record or heard from, if and only if the event is not an earlier attempt that loads less. |
| `SchedulerSafety.MutableExactlyBy` | scheduler/scheduler.go:549-560 | An immutable scheduler becomes mutable by exactly three events: the end of the last attempt to synchronise, of an earlier attempt, and of a reseeding. |
| `Overruns.ReseedSkipsSync` | scheduler/scheduler.go:1060-1078 | There is a run in which a reseeding makes it mutable while it still waits for tasks not heard from. |
| `Overruns.StaleSkipsSync` | scheduler/scheduler.go:499-575 | There is a run in which an earlier attempt makes it mutable before the last one has read the store. |
| `SchedulerSafety.LaunchNamesAreFresh` | scheduler/scheduler.go:916-917 | As long as no event runs over the 64-bit number, a launch uses a name never launched and never reported running before. |
| `SchedulerSafety.StepNumbered` | scheduler/scheduler.go:406-419 | No name in use has a number above the counter, and that stays so exactly if the event does not run over 64 bits. |
| `SchedulerSafety.NamesShareExactly` | scheduler/scheduler.go:916-917 | Two launches of a run use the same name if and only if the counter stood at the same number. |
| `Overruns.OverflowRepeatsNames` | scheduler/scheduler.go:406-419 | Past the last number names do come back: there is a run from a new scheduler in which a task reports the last number twice, with a launch after each report, nothing else is at fault, and both launches use one name. |
| `SchedulerSafety.StatusClearsOwn` | scheduler/scheduler.go:329-419 | A terminal or running status about the node that a scheduler launched clears the pending entry of that node and no other if its task id can be read, which it can if the host name of the offer is plain; else it clears none. |
| `SchedulerSafety.RunningAreTasks` | scheduler/scheduler.go:399-404 | In every run the running nodes are among the known tasks, none has an empty name, and no two have the same task id. |
| `Schedulers.EtcdScheduler.StatusUpdate` | scheduler/scheduler.go:316-423 | The fields after any status are those of the specified step, for readable and unreadable task ids and every report. |
| `Schedulers.EtcdScheduler.UsesSlave` | scheduler/scheduler.go:867-878 | Whether an instance is known to run on the slave. |
| `Schedulers.EtcdScheduler.ShouldLaunch` | scheduler/scheduler.go:761-785 | Exactly when the scheduler is mutable, not reseeding, has nothing pending and too few running, and the outside agrees. |
| `Schedulers.EtcdScheduler.PrepareLaunch` | scheduler/scheduler.go:908-997 | A new number and the name made from it, the host and slave of the offer and its first three ports, "new" exactly if no node is known to run and "existing" otherwise, and one pending entry; only the number if serialising fails. |
| `Schedulers.EtcdScheduler.Initialize` | scheduler/scheduler.go:499-512 | Running nodes, statuses heard and reconciliation info are forgotten, the rest is kept. |
| `Schedulers.EtcdScheduler.BeginReseed` | scheduler/scheduler.go:1060-1067 | Only one of several attempts to reseed goes on. |
| `Schedulers.EtcdScheduler.IsInSync` | scheduler/scheduler.go:577-593 | Exactly when everything on record has been heard from. |
| `Schedulers.EtcdScheduler.ReseedCluster` | scheduler/scheduler.go:1060-1120 | The seed answered and became healthy, and every running node with a higher raft index was tried and did not; with a seed, every known task but its own is killed, including every other running node, and its own is not; without one, nothing is. |
| `Reseed.RankReseedCandidates` | rpc/reseed.go:55-85 | The running nodes that answered, each once, with their indices, in descending order. |
| `Reseed.PickSeed` | scheduler/scheduler.go:1085-1109 | The first candidate that becomes healthy, hence the healthy one with the highest index; none only if none becomes healthy. |
| `Reseed.KillOthers` | scheduler/scheduler.go:1110-1119 | Every known task except the seed's. |
| `Config.RoundTripExactly` | config/config.go:43-67 | Parsing the text form gives name, host and the three ports back exactly when name and host are not empty and contain no white space. |
| `Config.BlankHostIsLost` | config/config.go:43-60 | A host name with a blank is not recovered. |
| `Config.TaskIdsDiffer` | config/config.go:64-67 | Nodes with the same task id have the same name, host and ports. |
| `Config.NameIndexOf` | scheduler/scheduler.go:406-411 | The number is read back from the name it was put into. |
| `Config.NamesDiffer` | scheduler/scheduler.go:916-917 | Different numbers make different names. |
| `Config.ParseKeepsName` | config/config.go:43-67 | If a task id made by this code can be read at all, it gives the name back. |
| `Wire.Buffer.EncLenThing` | Godeps/_workspace/src/github.com/gogo/protobuf/proto/encode.go:1240-1265 | For whatever an encoder appends: prefix, varint of the length, message, for every length, by shifting left, right or not at all; after a fatal error the reserved bytes and the partial message are left. |
| `Wire.Buffer.Shift` | Godeps/_workspace/src/github.com/gogo/protobuf/proto/encode.go:1250-1259 | The space before the message becomes as large as the length needs, and the message is the same. |
| `Wire.Buffer.WriteLength` | Godeps/_workspace/src/github.com/gogo/protobuf/proto/encode.go:1260-1263 | Going back, writing the length and taking the message in again relies on the array not being reallocated, which it is not. |
| `Wire.LengthPrefixRoundTrip` | Godeps/_workspace/src/github.com/gogo/protobuf/proto/decode.go:178-204 | Decoding what was encoded consumes exactly those bytes and returns the message. |
| `Wire.FieldRoundTrip` | Godeps/_workspace/src/github.com/gogo/protobuf/proto/decode.go:178-204 | A message behind its length is read back whole whatever follows it. |
| `Wire.Buffer.EncodeVarint` | Godeps/_workspace/src/github.com/gogo/protobuf/proto/encode.go:99-106 | Appends the varint, in place and without touching anything else where there is room. |
| `Wire.EncodeVarint` | Godeps/_workspace/src/github.com/gogo/protobuf/proto/encode.go:83-94 | The varint of every 64-bit number, within ten bytes. |
| `Wire.SizeVarint` | Godeps/_workspace/src/github.com/gogo/protobuf/proto/encode.go:108-117 | The number of bytes of the encoding. |
| `Wire.DecodeVarint` | Godeps/_workspace/src/github.com/gogo/protobuf/proto/decode.go:59-78 | The number modulo 2^64 and the bytes taken, or zero twice when the bytes end or ten do not end it. |
| `Wire.Buffer.DecodeVarint` | Godeps/_workspace/src/github.com/gogo/protobuf/proto/decode.go:81-104 | The same on a buffer, with the two errors told apart and the reader moved only on success. |
| `Wire.Buffer.EncodeRawBytes` | Godeps/_workspace/src/github.com/gogo/protobuf/proto/encode.go:182-186 | The length and then the bytes. |
| `Wire.Buffer.DecodeRawBytes` | Godeps/_workspace/src/github.com/gogo/protobuf/proto/decode.go:178-204 | The bytes behind a length, or the error; a length that is negative as an int or reaches past the end is refused with the reader behind it. |
| `Varint.RoundTrip` | Godeps/_workspace/src/github.com/gogo/protobuf/proto/decode.go:59-78 | Every 64-bit number is read back from its encoding with exactly its bytes. |
| `Varint.PrefixFree` | Godeps/_workspace/src/github.com/gogo/protobuf/proto/encode.go:83-94 | No encoding is the beginning of another. |

## Left out

- Raft membership change (pendingConf, addNode and removeNode after the start) and the conf-change entries it inspects: membership is fixed in the cluster model and the node model has no pendingConf.
- Snapshots and compaction in cluster runs: no node compacts there, so no snapshot is sent. The node, log, storage and delivery models have them.
- StepRefinement.RestartMoves: the restarted node keeps its member set. In the source a node restarted without a stored snapshot has no peers until the configuration entries of its log have been applied again; that interval is not modelled, nor is it in RaftNodes.OpenedIsRestarted, which is given the members.
- Restart in cluster runs: only with everything a node had persisted. Losing unsaved entries or votes, which the hand-off contract of Ready forbids, is not modelled.
- Ticks, election timeouts and their randomisation: a campaign or a heartbeat may start at any moment. The messages at which a leader panics are not events of a run; ClusterSafety.PanicsExactly says exactly which they are.
- Recovery.NeverStuck: says that such a continuation exists from every state, not that the timing of elections brings it about; so do Recovery.LeaderNeverStuck, Recovery.MayLead and Recovery.AnyoneMayLead.
- Growth.GrowsToDesired: likewise says that such a run exists.
- Founding.OneFounder: is about lives that meet the condition it names, since Founding.FoundsTwice shows that it fails otherwise.
- Overflow of 64-bit terms and indices in raft: they are natural numbers.
- The peers' records inside RaftNodes.RaftNode are values in a map instead of shared records. Inflight.ProgressRecord is the updated-in-place record, with its ring buffer, against the same functions.
- RaftNodes.RaftNode.Step: requires that the specification of Step does not panic and that the entries of an append message are numbered; ClusterSafety.NoPanic shows the first and every sent message has the second.
- RaftNodes.RaftNode.BecomeLeader: the scan of uncommitted entries for configuration changes is left out with pendingConf.
- RaftNodes.RaftNode.StepLeader: so is the replacement of a second pending configuration change by an empty entry.
- NodeLoops.NodeLoop.Advance: requires that the application has stored what the batch contained. NodeLoops.NodeLoop.Serve discharges this for a turn without input in between, NodeLoops.AcknowledgeLater for inputs in between in cluster runs, where there are no snapshots.
- NodeLoops.NodeLoop.Serve: takes no input between the batch and its acknowledgement, and requires that storage has not been compacted beyond what was written to it.
- The channels, status requests and the test whether a batch contains updates in the event loop of a node; raft/multinode.go.
- The sizes of encoded entries are computed from the wire format of their fields; entry types are not distinguished.
- Wire.DecodeVarint: bits are put together by addition instead of bitwise or; the digit put in lies above all bits that are there.
- Wire.Buffer.DecodeRawBytes: returns the bytes as a value, so that the sharing of memory without `alloc` is not modelled.
- Wire.Buffer.EncLenThing: the encoder is given by the bytes it appends and whether it failed, since a method cannot be passed as a value. The rest of the protobuf package is left out.
- OfferCaches.OfferCache.Push: requires an offer id that was not pushed before, as Mesos gives each offer a new id.
- OfferCaches.OfferCache.Pop: returns None where the source would wait.
- Resource arithmetic of offers (CPU, memory, disk, ports) is one flag of an offer, and port selection is three consecutive ports from the first.
- In SchedulerSpec the offer cache is a map whose pushes and pops do what the offer cache promises; the order of its queue is not visible there.
- LaunchBounds.LaunchesStayInBounds: is about one session, from its start to the next registration; Tenures.TenureStaysInBounds goes on through registrations and from inherited instances.
- Tenures.TenureStaysInBounds: an instance counts as living until it is reported ended, so that a lost instance that Mesos never reports is not told apart from a living one.
- SchedulerSafety.SafeStart: the attempts of earlier registrations go on beside the last one in the model, but that they give up after a number of retries is left out.
- Schedulers.EtcdScheduler.StatusUpdate: the write to the store is in SchedulerSpec and not among the fields of the class.
- Pruning of the etcd member list, health checks, the ZooKeeper protocol, the HTTP endpoints, statistics, sleeping and retry counts: their answers are inputs.
- Logging, generated protobuf code, the Mesos driver and the executor.
