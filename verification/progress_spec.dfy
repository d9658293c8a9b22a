/** A leader's record of one peer as a value, and what each operation makes of it. */
module ProgressSpec {
  import opened RaftTypes

  datatype ProgressState = Probe | Replicate | Snapshotting

  function Majority(total: nat): nat { total / 2 + 1 }

  /** What is left of the window once everything up to the first value above `upTo` is freed. */
  function FreedTo(ins: seq<nat>, upTo: nat): seq<nat> {
    if ins == [] || upTo < ins[0] then ins else FreedTo(ins[1..], upTo)
  }

  /** `ins` is the window of in-flight last indices, oldest first, of at most `cap` values. */
  datatype Pr = Pr(
    matched: nat,
    nextIdx: nat,
    state: ProgressState,
    paused: bool,
    pendingSnapshot: nat,
    recentActive: bool,
    ins: seq<nat>,
    cap: nat)
  {
    function ResetState(s: ProgressState): Pr {
      this.(state := s, paused := false, pendingSnapshot := 0, ins := [])
    }

    function Reset(next: nat): Pr {
      Pr(0, next, Probe, false, 0, false, [], cap)
    }

    function BecomeProbe(): Pr {
      if state == Snapshotting
      then ResetState(Probe).(nextIdx := Max(matched + 1, pendingSnapshot + 1))
      else ResetState(Probe).(nextIdx := matched + 1)
    }

    function BecomeReplicate(): Pr { ResetState(Replicate).(nextIdx := matched + 1) }

    function BecomeSnapshot(snapshotIdx: nat): Pr { ResetState(Snapshotting).(pendingSnapshot := snapshotIdx) }

    function SnapshotFailure(): Pr { this.(pendingSnapshot := 0) }

    predicate MaybeSnapshotAbort() { state == Snapshotting && matched >= pendingSnapshot }

    function MaybeUpdate(n: nat): Pr {
      this.(matched := Max(matched, n),
            paused := paused && n <= matched,
            nextIdx := Max(nextIdx, n + 1))
    }

    function OptimisticUpdate(n: nat): Pr { this.(nextIdx := n + 1) }

    /** The rejection is about the request now outstanding, not a stale one. */
    predicate DecrApplies(rejected: nat) {
      if state == Replicate then rejected > matched else nextIdx != 0 && nextIdx - 1 == rejected
    }

    function MaybeDecrTo(rejected: nat, last: nat): Pr {
      if !DecrApplies(rejected) then this
      else if state == Replicate then this.(nextIdx := matched + 1)
      else this.(nextIdx := Max(Min(rejected, last + 1), 1), paused := false)
    }

    predicate IsPaused() {
      match state
      case Probe => paused
      case Replicate => |ins| == cap
      case Snapshotting => true
    }

    function AddInflight(last: nat): Pr { this.(ins := ins + [last]) }

    function FreeTo(upTo: nat): Pr { this.(ins := FreedTo(ins, upTo)) }

    /** The bookkeeping of `prepare_send_entries` for a non-empty batch ending at `last`. */
    function Sent(last: nat): Pr {
      match state
      case Replicate => OptimisticUpdate(last).AddInflight(last)
      case Probe => this.(paused := true)
      case Snapshotting => this
    }
  }
}
