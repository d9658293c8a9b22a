/** `Progress`: the mutable record of one peer, proved against the value it stands for, and what its
    flow control keeps over any sequence of operations. */
module PeerProgress {
  import opened RaftTypes
  import opened ProgressSpec
  import opened InflightWindow

  class Progress {
    var matched: nat
    var nextIdx: nat
    var state: ProgressState
    var paused: bool
    var pendingSnapshot: nat
    var recentActive: bool
    const ins: Inflights

    ghost predicate Valid()
      reads this, ins
    {
      ins.Valid()
    }

    ghost function View(): Pr
      requires Valid()
      reads this, ins
    {
      Pr(matched, nextIdx, state, paused, pendingSnapshot, recentActive, ins.Contents(), ins.cap)
    }

    /** `Progress::new`, with the requested next index kept (the source stores 0). */
    constructor (nextIdx: nat, insSize: nat)
      ensures Valid() && fresh(ins) && View() == Pr(0, nextIdx, Probe, false, 0, false, [], insSize)
    {
      matched, this.nextIdx, state, paused, pendingSnapshot, recentActive := 0, nextIdx, Probe, false, 0, false;
      ins := new Inflights(insSize);
    }

    method ResetState(s: ProgressState)
      requires Valid()
      modifies this`paused, this`pendingSnapshot, this`state, ins
      ensures Valid() && View() == old(View()).ResetState(s)
    {
      paused := false;
      pendingSnapshot := 0;
      state := s;
      ins.Reset();
    }

    /** The source asserts, in debug builds, that the window has room for something. */
    method Reset(next: nat)
      requires Valid() && ins.cap != 0
      modifies this, ins
      ensures Valid() && View() == old(View()).Reset(next)
    {
      matched := 0;
      nextIdx := next;
      state := Probe;
      paused := false;
      pendingSnapshot := 0;
      recentActive := false;
      ins.Reset();
    }

    method BecomeProbe()
      requires Valid()
      modifies this, ins
      ensures Valid() && View() == old(View()).BecomeProbe()
    {
      if state == Snapshotting {
        var pending := pendingSnapshot;
        ResetState(Probe);
        nextIdx := Max(matched + 1, pending + 1);
      } else {
        ResetState(Probe);
        nextIdx := matched + 1;
      }
    }

    method BecomeReplicate()
      requires Valid()
      modifies this, ins
      ensures Valid() && View() == old(View()).BecomeReplicate()
    {
      ResetState(Replicate);
      nextIdx := matched + 1;
    }

    /** `become_snapshot`, recording the pending snapshot (the source overwrites the next index). */
    method BecomeSnapshot(snapshotIdx: nat)
      requires Valid()
      modifies this, ins
      ensures Valid() && View() == old(View()).BecomeSnapshot(snapshotIdx)
    {
      ResetState(Snapshotting);
      pendingSnapshot := snapshotIdx;
    }

    method SnapshotFailure()
      requires Valid()
      modifies this`pendingSnapshot
      ensures Valid() && View() == old(View()).SnapshotFailure()
    {
      pendingSnapshot := 0;
    }

    predicate MaybeSnapshotAbort()
      requires Valid()
      reads this, ins
      ensures MaybeSnapshotAbort() == View().MaybeSnapshotAbort()
    {
      state == Snapshotting && matched >= pendingSnapshot
    }

    method MaybeUpdate(n: nat) returns (needUpdate: bool)
      requires Valid()
      modifies this`matched, this`paused, this`nextIdx
      ensures Valid() && View() == old(View()).MaybeUpdate(n) && needUpdate == (old(matched) < n)
    {
      needUpdate := matched < n;
      if needUpdate {
        matched := n;
        Resume();
      }
      if nextIdx < n + 1 {
        nextIdx := n + 1;
      }
    }

    method OptimisticUpdate(n: nat)
      requires Valid()
      modifies this`nextIdx
      ensures Valid() && View() == old(View()).OptimisticUpdate(n)
    {
      nextIdx := n + 1;
    }

    method MaybeDecrTo(rejected: nat, last: nat) returns (applied: bool)
      requires Valid()
      modifies this`nextIdx, this`paused
      ensures Valid() && View() == old(View()).MaybeDecrTo(rejected, last)
      ensures applied == old(View()).DecrApplies(rejected)
    {
      if state == Replicate {
        if rejected <= matched {
          return false;
        }
        nextIdx := matched + 1;
        return true;
      }
      if nextIdx == 0 || nextIdx - 1 != rejected {
        return false;
      }
      nextIdx := Min(rejected, last + 1);
      if nextIdx < 1 {
        nextIdx := 1;
      }
      Resume();
      applied := true;
    }

    predicate IsPaused()
      requires Valid()
      reads this, ins
      ensures IsPaused() == View().IsPaused()
    {
      match state
      case Probe => paused
      case Replicate => ins.Full()
      case Snapshotting => true
    }

    method Resume()
      requires Valid()
      modifies this`paused
      ensures Valid() && View() == old(View()).(paused := false)
    {
      paused := false;
    }

    method Pause()
      requires Valid()
      modifies this`paused
      ensures Valid() && View() == old(View()).(paused := true)
    {
      paused := true;
    }

    /** The bookkeeping of `prepare_send_entries` for a batch ending at `last`: the source panics in
        the snapshot state and on a full window, which pausing rules out. */
    method RecordSent(last: nat)
      requires Valid() && !IsPaused()
      modifies this, ins
      ensures Valid() && View() == old(View()).Sent(last)
    {
      match state {
        case Replicate =>
          OptimisticUpdate(last);
          ins.Add(last);
        case Probe =>
          Pause();
        case Snapshotting =>
          assert false;
      }
    }
  }

  // ---- flow control over any sequence of operations ----

  datatype PeerOp =
    | OpSend(last: nat)
    | OpAck(n: nat)
    | OpReject(rejected: nat, hint: nat)
    | OpFree(upTo: nat)
    | OpProbe
    | OpReplicate
    | OpSnapshot(idx: nat)
    | OpSnapshotFailure
    | OpResume

  /** When the leader performs an operation: it sends only to a peer that is not paused, and a batch ends
      at or after the next index. Acknowledgements and rejections come as they come. */
  predicate Performable(pr: Pr, op: PeerOp) {
    op.OpSend? ==> !pr.IsPaused() && op.last >= pr.nextIdx
  }

  function Performed(pr: Pr, op: PeerOp): Pr {
    match op
    case OpSend(last) => pr.Sent(last)
    case OpAck(n) => pr.MaybeUpdate(n)
    case OpReject(rejected, hint) => pr.MaybeDecrTo(rejected, hint)
    case OpFree(upTo) => pr.FreeTo(upTo)
    case OpProbe => pr.BecomeProbe()
    case OpReplicate => pr.BecomeReplicate()
    case OpSnapshot(idx) => pr.BecomeSnapshot(idx)
    case OpSnapshotFailure => pr.SnapshotFailure()
    case OpResume => pr.(paused := false)
  }

  /** The two panics of sending: in the snapshot state, and into a full window. */
  predicate SendPanics(pr: Pr) {
    pr.state == Snapshotting || (pr.state == Replicate && |pr.ins| >= pr.cap)
  }

  ghost predicate Performs(pr: Pr, ops: seq<PeerOp>, pr': Pr)
    decreases |ops|
  {
    if ops == [] then pr' == pr else Performable(pr, ops[0]) && Performs(Performed(pr, ops[0]), ops[1..], pr')
  }

  // ---- what every run keeps ----

  /** The window holds no more than its capacity, and only while replicating. */
  predicate Bounded(pr: Pr) { |pr.ins| <= pr.cap && (pr.state != Replicate ==> pr.ins == []) }

  lemma PerformedBounded(pr: Pr, op: PeerOp)
    requires Bounded(pr) && Performable(pr, op)
    ensures Bounded(Performed(pr, op)) && Performed(pr, op).matched >= pr.matched
    ensures op.OpSend? ==> !SendPanics(pr)
  {
    if op.OpFree? { FreedToIsLongestRun(pr.ins, op.upTo); }
  }

  /** Over any run whatever, with any acknowledgements and rejections: the window stays within its
      capacity and empty unless replicating, what is matched never falls, and no send panics, neither
      one of the run nor the next to a peer that is not paused. */
  lemma {:induction false} BoundedOverRuns(pr: Pr, ops: seq<PeerOp>, pr': Pr)
    requires Bounded(pr) && Performs(pr, ops, pr')
    ensures Bounded(pr') && pr'.matched >= pr.matched && (!pr'.IsPaused() ==> !SendPanics(pr'))
    ensures NoSendPanics(pr, ops)
    decreases |ops|
  {
    if ops != [] {
      PerformedBounded(pr, ops[0]);
      BoundedOverRuns(Performed(pr, ops[0]), ops[1..], pr');
    }
  }

  ghost predicate NoSendPanics(pr: Pr, ops: seq<PeerOp>)
    decreases |ops|
  {
    ops == [] || ((ops[0].OpSend? ==> !SendPanics(pr)) && NoSendPanics(Performed(pr, ops[0]), ops[1..]))
  }

  /** In particular over every run from a record as an election leaves it. */
  lemma BoundedFromReset(pr: Pr, next: nat, ops: seq<PeerOp>, pr': Pr)
    requires Performs(pr.Reset(next), ops, pr')
    ensures Bounded(pr') && NoSendPanics(pr.Reset(next), ops) && (!pr'.IsPaused() ==> !SendPanics(pr'))
  {
    BoundedOverRuns(pr.Reset(next), ops, pr');
  }

  // ---- what is in the window ----

  /** The ends of the batches sent, in order. */
  function SentIn(ops: seq<PeerOp>): seq<nat> {
    if ops == [] then [] else SentBy(ops[0]) + SentIn(ops[1..])
  }

  function SentBy(op: PeerOp): seq<nat> { if op.OpSend? then [op.last] else [] }

  /** Nothing that changes the state of the record. */
  predicate Steady(op: PeerOp) { op.OpSend? || op.OpAck? || op.OpReject? || op.OpFree? || op.OpResume? }

  ghost predicate FreedBy(ops: seq<PeerOp>, value: nat) {
    exists y :: 0 <= y < |ops| && ops[y].OpFree? && value <= ops[y].upTo
  }

  lemma FreedSooner(ops: seq<PeerOp>, value: nat)
    requires ops != [] && FreedBy(ops[1..], value)
    ensures FreedBy(ops, value)
  {
    var y :| 0 <= y < |ops[1..]| && ops[1..][y].OpFree? && value <= ops[1..][y].upTo;
    assert ops[y + 1] == ops[1..][y];
  }

  /** One operation drops a front part that it frees, or appends what it sends. */
  lemma OneOp(pr: Pr, op: PeerOp) returns (d: nat)
    requires pr.state == Replicate && Performable(pr, op) && Steady(op)
    ensures d <= |pr.ins| && (op.OpFree? || d == 0)
    ensures Performed(pr, op).ins == pr.ins[d..] + SentBy(op)
    ensures op.OpFree? ==> forall x :: 0 <= x < d ==> pr.ins[x] <= op.upTo
  {
    d := 0;
    if op.OpFree? {
      FreedToIsLongestRun(pr.ins, op.upTo);
      d := |pr.ins| - |FreedTo(pr.ins, op.upTo)|;
    }
  }

  /** The window is `ins` and then what `ops` sent, without the first `k` values, which `ops` freed. */
  ghost predicate InFlight(ins: seq<nat>, ops: seq<PeerOp>, k: nat, window: seq<nat>) {
    var all := ins + SentIn(ops);
    k <= |all| && window == all[k..] && forall x :: 0 <= x < k ==> FreedBy(ops, all[x])
  }

  /** The first `d` of `a` dropped first, or last. */
  lemma Regroup(a: seq<nat>, d: nat, b: seq<nat>, c: seq<nat>)
    requires d <= |a|
    ensures a + (b + c) == a[..d] + (a[d..] + b + c)
  {
    assert a == a[..d] + a[d..];
  }

  lemma WindowSooner(first: seq<nat>, all: seq<nat>, later: seq<nat>, j: nat)
    requires all == first + later && j <= |later|
    ensures all[|first| + j..] == later[j..]
    ensures forall x :: 0 <= x < |first| ==> all[x] == first[x]
    ensures forall x :: |first| <= x < |all| ==> all[x] == later[x - |first|]
  {
  }

  lemma AllSooner(ins: seq<nat>, ops: seq<PeerOp>, mid: seq<nat>, d: nat)
    requires ops != [] && d <= |ins| && mid == ins[d..] + SentBy(ops[0])
    ensures ins + SentIn(ops) == ins[..d] + (mid + SentIn(ops[1..]))
  {
    Regroup(ins, d, SentBy(ops[0]), SentIn(ops[1..]));
  }

  lemma InFlightSooner(ins: seq<nat>, ops: seq<PeerOp>, mid: seq<nat>, d: nat, j: nat, window: seq<nat>)
    requires ops != [] && d <= |ins| && mid == ins[d..] + SentBy(ops[0]) && InFlight(mid, ops[1..], j, window)
    requires forall x :: 0 <= x < d ==> ops[0].OpFree? && ins[x] <= ops[0].upTo
    ensures InFlight(ins, ops, d + j, window)
  {
    var all, later := ins + SentIn(ops), mid + SentIn(ops[1..]);
    AllSooner(ins, ops, mid, d);
    WindowSooner(ins[..d], all, later, j);
    forall x | 0 <= x < d + j ensures FreedBy(ops, all[x]) {
      if x < d {
        assert ops[0].OpFree? && all[x] <= ops[0].upTo;
      } else {
        FreedSooner(ops, later[x - d]);
      }
    }
  }

  ghost predicate AllSteady(ops: seq<PeerOp>) { forall x :: 0 <= x < |ops| ==> Steady(ops[x]) }

  /** While replicating every batch sent is in flight until it is freed: the window is what was in it and
      what was sent since, without a front part that was freed. */
  lemma {:induction false} WindowOverRuns(pr: Pr, ops: seq<PeerOp>, pr': Pr) returns (k: nat)
    requires pr.state == Replicate && Performs(pr, ops, pr') && AllSteady(ops)
    ensures pr'.state == Replicate && InFlight(pr.ins, ops, k, pr'.ins)
    decreases |ops|
  {
    if ops == [] {
      k := 0;
    } else {
      var next := Performed(pr, ops[0]);
      var d := OneOp(pr, ops[0]);
      var j := WindowOverRuns(next, ops[1..], pr');
      InFlightSooner(pr.ins, ops, next.ins, d, j, pr'.ins);
      k := d + j;
    }
  }

  // ---- a snapshot under way ----

  /** While a snapshot is under way nothing else is sent. It is remembered until its failure is reported,
      and probing then resumes behind it, or behind what is matched if that is further or it failed. */
  ghost predicate Awaiting(pr: Pr, idx: nat, matched: nat) {
    && pr.state == Snapshotting && pr.IsPaused() && pr.matched >= matched
    && (pr.MaybeSnapshotAbort() <==> pr.matched >= idx)
    && pr.BecomeProbe() == Pr(pr.matched, Max(pr.matched, idx) + 1, Probe, false, 0, pr.recentActive, [], pr.cap)
    && pr.SnapshotFailure().BecomeProbe() == pr.BecomeProbe().(nextIdx := pr.matched + 1)
  }

  /** Over any run, with any acknowledgements, rejections and frees, that reports no failure. */
  lemma {:induction false} SnapshotOverRuns(pr: Pr, idx: nat, ops: seq<PeerOp>, pr': Pr)
    requires pr.state == Snapshotting && pr.pendingSnapshot == idx && pr.ins == []
    requires Performs(pr, ops, pr') && AllSteady(ops)
    ensures Awaiting(pr', idx, pr.matched)
    decreases |ops|
  {
    if ops != [] { SnapshotOverRuns(Performed(pr, ops[0]), idx, ops[1..], pr'); }
  }

  /** In particular from the moment the snapshot is sent, whatever the record. */
  lemma SnapshotFromSending(pr: Pr, idx: nat, ops: seq<PeerOp>, pr': Pr)
    requires Performs(pr.BecomeSnapshot(idx), ops, pr') && AllSteady(ops)
    ensures Awaiting(pr', idx, pr.matched)
  {
    SnapshotOverRuns(pr.BecomeSnapshot(idx), idx, ops, pr');
  }

  // ---- the order of the window, and what rejections do to it ----

  /** The in-flight values increase strictly and lie below the next index; what is matched does too. */
  ghost predicate Flow(pr: Pr) {
    && Bounded(pr) && pr.matched < pr.nextIdx
    && (forall a, b :: 0 <= a < b < |pr.ins| ==> pr.ins[a] < pr.ins[b])
    && (forall a :: 0 <= a < |pr.ins| ==> pr.ins[a] < pr.nextIdx)
  }

  /** The rejection does not apply; or, while probing, nothing is matched yet, or the rejected index is
      not matched and the hint not behind what is; or, while replicating, nothing unmatched is in
      flight. */
  predicate Harmless(pr: Pr, rejected: nat, hint: nat) {
    pr.DecrApplies(rejected) ==>
      if pr.state == Replicate then forall a :: 0 <= a < |pr.ins| ==> pr.ins[a] <= pr.matched
      else pr.matched == 0 || (pr.matched < rejected && pr.matched <= hint)
  }

  /** `maybe_decr_to` keeps the order exactly on the harmless rejections. */
  lemma RejectionExact(pr: Pr, rejected: nat, hint: nat)
    requires Flow(pr)
    ensures Flow(pr.MaybeDecrTo(rejected, hint)) <==> Harmless(pr, rejected, hint)
  {
    var pr' := pr.MaybeDecrTo(rejected, hint);
    if Flow(pr') && pr.state == Replicate {
      forall a | 0 <= a < |pr.ins| && pr.DecrApplies(rejected) ensures pr.ins[a] <= pr.matched {
        assert pr'.ins[a] < pr'.nextIdx;
      }
    }
  }

  /** Probing, a repeated rejection is not harmless: the peer matched index 5 meanwhile, and the next
      index falls back below it. */
  lemma StaleRejectionFallsBack()
    ensures var pr := Pr(5, 6, Probe, false, 0, true, [], 8);
            Flow(pr) && pr.MaybeDecrTo(5, 2).nextIdx == 3 && !Flow(pr.MaybeDecrTo(5, 2))
  {
  }

  /** Replicating, already the first rejection of a batch in flight is not: the next index goes back to
      what is matched, the window keeps its values, and the next send repeats one of them. */
  lemma ReplicatingRejectionDisorders()
    ensures var pr := Pr(4, 8, Replicate, false, 0, true, [5, 6, 7], 8);
            var back := pr.MaybeDecrTo(5, 4);
            && Flow(pr) && back.nextIdx == 5 && back.ins == [5, 6, 7] && !Flow(back)
            && Performable(back, OpSend(5)) && back.Sent(5).ins == [5, 6, 7, 5]
  {
    var back := Pr(4, 8, Replicate, false, 0, true, [5, 6, 7], 8).MaybeDecrTo(5, 4);
    assert back.ins[0] == 5;
  }

  /** Falling back to probing, or starting to replicate afresh, restores the order, whatever rejections
      did to it before. */
  lemma BecomingRestoresFlow(pr: Pr)
    requires Bounded(pr)
    ensures Flow(pr.BecomeProbe()) && Flow(pr.BecomeReplicate())
  {
  }

  lemma FreeKeepsFlow(pr: Pr, upTo: nat)
    requires Flow(pr)
    ensures Flow(pr.FreeTo(upTo))
  {
    FreedToIsLongestRun(pr.ins, upTo);
  }

  /** Every operation that is not a harmful rejection keeps the order. */
  lemma PerformedKeepsFlow(pr: Pr, op: PeerOp)
    requires Flow(pr) && Performable(pr, op) && (op.OpReject? ==> Harmless(pr, op.rejected, op.hint))
    ensures Flow(Performed(pr, op))
    ensures op.OpAck? || op.OpSend? ==> Performed(pr, op).nextIdx >= pr.nextIdx
  {
    match op {
      case OpFree(upTo) => FreeKeepsFlow(pr, upTo);
      case OpReject(rejected, hint) => RejectionExact(pr, rejected, hint);
      case _ =>
    }
  }

  /** Every rejection of the run that is not harmless is answered by falling back to probing, or by
      starting to replicate afresh, before anything else is done. */
  ghost predicate Recovers(pr: Pr, ops: seq<PeerOp>)
    decreases |ops|
  {
    ops == [] ||
    (if ops[0].OpReject? && !Harmless(pr, ops[0].rejected, ops[0].hint)
     then |ops| >= 2 && (ops[1].OpProbe? || ops[1].OpReplicate?) &&
          Recovers(Performed(Performed(pr, ops[0]), ops[1]), ops[2..])
     else Recovers(Performed(pr, ops[0]), ops[1..]))
  }

  /** A leader that recovers from harmful rejections keeps the window in order over every run. */
  lemma {:induction false} FlowOverRuns(pr: Pr, ops: seq<PeerOp>, pr': Pr)
    requires Flow(pr) && Performs(pr, ops, pr') && Recovers(pr, ops)
    ensures Flow(pr')
    decreases |ops|
  {
    if ops != [] {
      var next := Performed(pr, ops[0]);
      if ops[0].OpReject? && !Harmless(pr, ops[0].rejected, ops[0].hint) {
        PerformedBounded(pr, ops[0]);
        BecomingRestoresFlow(next);
        assert ops[1..][0] == ops[1] && ops[1..][1..] == ops[2..];
        FlowOverRuns(Performed(next, ops[1]), ops[2..], pr');
      } else {
        PerformedKeepsFlow(pr, ops[0]);
        FlowOverRuns(next, ops[1..], pr');
      }
    }
  }

  /** In particular for every run from a record as an election leaves it. */
  lemma FlowFromReset(pr: Pr, next: nat, ops: seq<PeerOp>, pr': Pr)
    requires next >= 1 && Performs(pr.Reset(next), ops, pr') && Recovers(pr.Reset(next), ops)
    ensures Flow(pr')
  {
    FlowOverRuns(pr.Reset(next), ops, pr');
  }

  // ---- as written ----

  /** `become_snapshot` as written: the index goes to `next_idx`, the pending snapshot stays 0. */
  function BecomeSnapshotAsWritten(pr: Pr, snapshotIdx: nat): Pr {
    pr.ResetState(Snapshotting).(nextIdx := snapshotIdx)
  }

  /** As written the abort test holds at once, whatever was matched; as meant, it holds exactly when
      the peer has already matched the snapshot. The two agree only in that case. */
  lemma SnapshotAbortAsWritten(pr: Pr, snapshotIdx: nat)
    ensures BecomeSnapshotAsWritten(pr, snapshotIdx).MaybeSnapshotAbort()
    ensures pr.BecomeSnapshot(snapshotIdx).MaybeSnapshotAbort() <==> pr.matched >= snapshotIdx
    ensures (BecomeSnapshotAsWritten(pr, snapshotIdx).BecomeProbe() == pr.BecomeSnapshot(snapshotIdx).BecomeProbe())
            <==> snapshotIdx <= pr.matched
  {
  }
}
