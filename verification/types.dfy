/** Plain records exchanged by every layer: log entries, snapshots, hard state, messages. */
module RaftTypes {

  datatype Option<+T> = None | Some(value: T)

  type Bytes = seq<bv8>

  datatype EntryType = EntryNormal | EntryConfChange

  datatype Entry = Entry(etype: EntryType, term: nat, index: nat, data: Bytes)

  datatype Snapshot = Snapshot(index: nat, term: nat, data: Bytes)

  datatype HardState = HardState(term: nat, vote: nat, commit: nat)

  datatype StorageError = Compacted | Unavailable | SnapshotOutOfDate

  datatype Result<+T> = Ok(value: T) | Err(error: StorageError)

  /** The "no node" marker of `vote` and `leader_id`. */
  const INVALID_ID: nat := 0

  /** `u64::MAX`: the limit that switches limiting off. */
  const NO_LIMIT: nat := 0xFFFF_FFFF_FFFF_FFFF

  datatype MessageType =
    | MsgHup
    | MsgPropose
    | MsgAppend
    | MsgAppendResponse
    | MsgRequestVote
    | MsgRequestVoteResponse
    | MsgHeartbeat
    | MsgHeartbeatResponse
    | MsgTimeoutNow
    | MsgReadIndex
    | MsgRequestPreVote
    | MsgRequestPreVoteResponse

  datatype Message = Message(
    mtype: MessageType,
    to: nat,
    from: nat,
    term: nat,
    logTerm: nat := 0,
    index: nat := 0,
    entries: seq<Entry> := [],
    commit: nat := 0,
    reject: bool := false,
    rejectHint: nat := 0,
    context: Bytes := [])

  /** The entries carry consecutive indices starting at `first`. */
  ghost predicate Contiguous(es: seq<Entry>, first: nat) {
    forall k :: 0 <= k < |es| ==> es[k].index == first + k
  }

  function Min(a: nat, b: nat): nat { if a <= b then a else b }

  function Max(a: nat, b: nat): nat { if a <= b then b else a }
}
