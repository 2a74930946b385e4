/** Values shared by every layer of the model: log entries, snapshots and the
    messages that raft nodes exchange. */
module Types {

  datatype Option<+T> = None | Some(value: T)

  /** Node identifiers are positive; NONE stands for "no node". */
  type NodeId = nat
  const NONE: NodeId := 0

  type byte = x: int | 0 <= x < 256 witness 0

  /** A proposal's payload. Go distinguishes a nil slice from an empty one, and the
      encoded size of an entry depends on which of the two it is. */
  datatype Payload = Nil | Bytes(bytes: seq<byte>)

  datatype Entry = Entry(term: nat, index: nat, data: Payload)

  datatype Role = Follower | Candidate | Leader

  /** Snapshot metadata; the application's own state is opaque to raft. */
  datatype Snapshot = Snapshot(index: nat, term: nat, nodes: set<NodeId>)

  const NoSnapshot := Snapshot(0, 0, {})

  datatype MessageType =
    | MsgHup | MsgBeat | MsgProp
    | MsgApp | MsgAppResp
    | MsgVote | MsgVoteResp
    | MsgSnap
    | MsgHeartbeat | MsgHeartbeatResp
    | MsgUnreachable | MsgSnapStatus

  datatype Message = Message(
    kind: MessageType,
    to: NodeId,
    from: NodeId,
    term: nat,
    logTerm: nat,
    index: nat,
    entries: seq<Entry>,
    commit: nat,
    snapshot: Snapshot,
    reject: bool,
    rejectHint: nat)

  /** The zero message of a kind; every sender fills in the fields it needs. */
  function Blank(kind: MessageType, to: NodeId, from: NodeId, term: nat): Message {
    Message(kind, to, from, term, 0, 0, [], 0, NoSnapshot, false, 0)
  }

  predicate IsResponse(kind: MessageType) {
    kind.MsgAppResp? || kind.MsgVoteResp? || kind.MsgHeartbeatResp? || kind.MsgUnreachable?
  }

  function Min(a: nat, b: nat): nat {
    if a > b then b else a
  }

  function Max(a: nat, b: nat): nat {
    if a > b then a else b
  }
}
