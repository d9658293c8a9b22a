/** `Inflights`: a ring buffer that grows by pushing until its capacity is reached and wraps around
    after that. It stands for a bounded FIFO. */
module InflightWindow {
  import opened RaftTypes
  import opened ProgressSpec

  /** The slot `k` places after `start` in a ring of `cap` slots. */
  function Slot(start: nat, k: nat, cap: nat): nat {
    if start + k >= cap then start + k - cap else start + k
  }

  /** Freeing drops exactly the longest leading run of values up to `upTo`. */
  lemma {:induction false} FreedToIsLongestRun(ins: seq<nat>, upTo: nat)
    ensures var r := FreedTo(ins, upTo);
            var n := |ins| - |r|;
            && n >= 0 && r == ins[n..]
            && (forall k :: 0 <= k < n ==> ins[k] <= upTo)
            && (r != [] ==> r[0] > upTo)
  {
    if ins != [] && ins[0] <= upTo {
      FreedToIsLongestRun(ins[1..], upTo);
      var n := |ins| - 1 - |FreedTo(ins[1..], upTo)|;
      assert ins[1..][n..] == ins[n + 1..];
      forall k | 0 <= k < n + 1 ensures ins[k] <= upTo {
        if k > 0 { assert ins[k] == ins[1..][k - 1]; }
      }
    }
  }

  /** The `count` values from `start` on, around the ring. */
  function Ring(buffer: seq<nat>, start: nat, count: nat, cap: nat): seq<nat> {
    seq(count, k requires 0 <= k < count =>
      if Slot(start, k, cap) < |buffer| then buffer[Slot(start, k, cap)] else 0)
  }

  /** Moving the start over `i` values drops them. */
  lemma RingDrop(buffer: seq<nat>, start: nat, count: nat, cap: nat, i: nat)
    requires start < cap && i <= count <= cap
    ensures Ring(buffer, Slot(start, i, cap), count - i, cap) == Ring(buffer, start, count, cap)[i..]
  {
    forall k | 0 <= k < count - i ensures Slot(Slot(start, i, cap), k, cap) == Slot(start, i + k, cap) { }
  }

  // ---- what a caller knows of a window ----

  datatype WindowOp = OpAdd(inflight: nat) | OpFreeTo(upTo: nat) | OpReset

  /** The values in flight, how many were added since the last reset, and the most that were ever added
      between two resets. */
  datatype Tally = Tally(window: seq<nat>, added: nat, most: nat) {
    function Did(op: WindowOp): Tally {
      match op
      case OpAdd(x) => Tally(window + [x], added + 1, Max(most, added + 1))
      case OpFreeTo(upTo) => this.(window := FreedTo(window, upTo))
      case OpReset => this.(window := [], added := 0)
    }

    /** `free_first_one` finds a value where it looks. */
    predicate FirstReadable(cap: nat) { window != [] || (cap > 0 && (added >= cap || added < most)) }
  }

  const NOTHING := Tally([], 0, 0)

  function After(ops: seq<WindowOp>): Tally {
    if ops == [] then NOTHING else After(ops[..|ops| - 1]).Did(ops[|ops| - 1])
  }

  /** How many values a run adds from its `k`-th operation on, up to the next reset. */
  function AddedFrom(ops: seq<WindowOp>, k: nat): nat
    requires k <= |ops|
    decreases |ops| - k
  {
    if k == |ops| || ops[k].OpReset? then 0 else AddedFrom(ops, k + 1) + if ops[k].OpAdd? then 1 else 0
  }

  ghost predicate NoReset(ops: seq<WindowOp>, k: nat) {
    forall x :: k <= x < |ops| ==> !ops[x].OpReset?
  }

  lemma {:induction false} AddedFromLonger(ops: seq<WindowOp>, op: WindowOp, k: nat)
    requires k <= |ops|
    ensures AddedFrom(ops + [op], k) == AddedFrom(ops, k) + if NoReset(ops, k) && op.OpAdd? then 1 else 0
    decreases |ops| - k
  {
    if k < |ops| {
      AddedFromLonger(ops, op, k + 1);
      assert (ops + [op])[k] == ops[k];
      assert NoReset(ops, k) <==> !ops[k].OpReset? && NoReset(ops, k + 1);
    } else {
      assert (ops + [op])[k] == op;
      assert AddedFrom(ops + [op], k + 1) == 0;
    }
  }

  /** What the two counts of a tally are: `added` the adds since the last reset, `most` the greatest
      number between two resets. */
  lemma {:induction false} TallyCounts(ops: seq<WindowOp>) returns (since: nat, best: nat)
    ensures since <= |ops| && NoReset(ops, since) && AddedFrom(ops, since) == After(ops).added
    ensures best <= |ops| && AddedFrom(ops, best) == After(ops).most
    ensures forall k :: 0 <= k <= |ops| ==> AddedFrom(ops, k) <= After(ops).most
    ensures forall k :: 0 <= k <= |ops| && NoReset(ops, k) ==> AddedFrom(ops, k) <= After(ops).added
    decreases |ops|
  {
    if ops == [] {
      since, best := 0, 0;
    } else {
      var before, op := ops[..|ops| - 1], ops[|ops| - 1];
      assert ops == before + [op];
      var since0, best0 := TallyCounts(before);
      forall k | 0 <= k <= |before| ensures NoReset(ops, k) <==> NoReset(before, k) && !op.OpReset? {
        assert NoReset(before, k) && !op.OpReset? ==> NoReset(ops, k);
        if NoReset(ops, k) {
          assert ops[|before|] == op;
          forall x | k <= x < |before| ensures !before[x].OpReset? { assert ops[x] == before[x]; }
        }
      }
      forall k | 0 <= k <= |ops|
        ensures AddedFrom(ops, k) <= After(ops).most && (NoReset(ops, k) ==> AddedFrom(ops, k) <= After(ops).added)
      {
        if k < |ops| { AddedFromLonger(before, op, k); }
      }
      AddedFromLonger(before, op, since0);
      AddedFromLonger(before, op, best0);
      since := if op.OpReset? then |ops| else since0;
      best := if op.OpAdd? && After(before).added + 1 > After(before).most then since0 else best0;
    }
  }

  /** From its `k`-th operation on the run adds enough: as many values as fit since the last reset, or,
      before it, more than since. */
  ghost predicate AddsEnough(cap: nat, ops: seq<WindowOp>, k: nat)
    requires k <= |ops|
  {
    if NoReset(ops, k) then AddedFrom(ops, k) >= cap else AddedFrom(ops, k) > After(ops).added
  }

  /** When a caller may free the first value, over any run: it fails exactly on an empty window, if fewer
      values than fit were added since the last reset and no earlier stretch between resets added more. */
  lemma FirstReadableOverRuns(cap: nat, ops: seq<WindowOp>)
    ensures After(ops).FirstReadable(cap) <==>
            After(ops).window != [] || (cap > 0 && exists k :: 0 <= k <= |ops| && AddsEnough(cap, ops, k))
  {
    var since, best := TallyCounts(ops);
    var t := After(ops);
    if cap > 0 && t.added >= cap { assert AddsEnough(cap, ops, since); }
    if cap > 0 && t.added < t.most { assert AddsEnough(cap, ops, best); }
  }

  /** Two runs after which the read fails: none at all, for every capacity, and one value added and freed. */
  lemma CannotFreeFirst(cap: nat)
    ensures !After([]).FirstReadable(cap)
    ensures cap >= 2 ==> !After([OpAdd(7), OpFreeTo(7)]).FirstReadable(cap)
  {
    assert [OpAdd(7), OpFreeTo(7)][..1] == [OpAdd(7)] && [OpAdd(7)][..0] == [];
    assert After([OpAdd(7)]) == Tally([7], 1, 1);
    assert FreedTo([7], 7) == FreedTo([], 7) by { assert [7][1..] == []; }
  }

  class Inflights {
    const cap: nat
    var start: nat
    var count: nat
    var buffer: seq<nat>
    ghost var tally: Tally

    /** Either the window ends inside what was ever pushed, or everything was pushed. Until the values
        added since a reset reach the capacity the window has not wrapped, and the buffer is as long as
        the longest such stretch. */
    ghost predicate Valid()
      reads this
    {
      && count <= cap && |buffer| <= cap
      && (cap == 0 ==> start == 0) && (cap > 0 ==> start < cap)
      && (start + count <= |buffer| || |buffer| == cap)
      && tally.window == Contents() && tally.added <= tally.most
      && |buffer| == Min(cap, tally.most)
      && (tally.added < cap || cap == 0 ==> start + count == tally.added)
    }

    ghost function Contents(): (s: seq<nat>)
      reads this
    {
      Ring(buffer, start, count, cap)
    }

    constructor (cap: nat)
      ensures Valid() && this.cap == cap && tally == NOTHING && Contents() == []
    {
      this.cap := cap;
      start, count, buffer := 0, 0, [];
      tally := NOTHING;
    }

    predicate Full()
      requires Valid()
      reads this
      ensures Full() <==> |Contents()| == cap
    {
      count == cap
    }

    /** Where `free_first_one` would read past the end of the buffer: exactly on an empty window whose
        start is the end of what was ever pushed, and exactly when the tally says so. */
    lemma FirstReadableExactly()
      requires Valid()
      ensures start >= |buffer| <==> Contents() == [] && start == |buffer|
      ensures start < |buffer| <==> tally.FirstReadable(cap)
    {
    }

    /** Panics only when full; the internal assertion and the indexing hold. */
    method Add(inflight: nat)
      requires Valid() && |Contents()| < cap
      modifies this
      ensures Valid() && Contents() == old(Contents()) + [inflight]
      ensures tally == old(tally).Did(OpAdd(inflight))
    {
      var next := start + count;
      if next >= cap {
        next := next - cap;
      }
      assert next <= |buffer|;
      ghost var was := Contents();
      if next == |buffer| {
        buffer := buffer + [inflight];
      } else {
        buffer := buffer[next := inflight];
      }
      count := count + 1;
      tally := tally.Did(OpAdd(inflight));
      forall k | 0 <= k < count ensures Contents()[k] == (was + [inflight])[k] {
        if k < count - 1 { assert Slot(start, k, cap) != next; }
      }
    }

    /** How many of the oldest values are at most `upTo`, and where the next one is. */
    method CountFreed(upTo: nat) returns (i: nat, idx: nat)
      requires Valid() && count > 0 && buffer[start] <= upTo
      ensures i <= count && idx == Slot(start, i, cap) && idx < cap
      ensures forall k :: 0 <= k < i ==> Contents()[k] <= upTo
      ensures i < count ==> Contents()[i] > upTo
    {
      i, idx := 0, start;
      while i < count
        invariant 0 <= i <= count
        invariant idx == Slot(start, i, cap) && idx < cap
        invariant forall k :: 0 <= k < i ==> Contents()[k] <= upTo
      {
        assert Contents()[i] == buffer[idx];
        if upTo < buffer[idx] {
          break;
        }
        idx := idx + 1;
        if idx >= cap {
          idx := idx - cap;
        }
        i := i + 1;
      }
    }

    method FreeTo(upTo: nat)
      requires Valid()
      modifies this`start, this`count, this`tally
      ensures Valid() && Contents() == FreedTo(old(Contents()), upTo)
      ensures tally == old(tally).Did(OpFreeTo(upTo))
    {
      ghost var was := Contents();
      if count == 0 || upTo < buffer[start] {
        tally := tally.Did(OpFreeTo(upTo));
        return;
      }
      var i, idx := CountFreed(upTo);
      forall k | 0 <= k < i ensures was[k] <= upTo { assert Contents()[k] <= upTo; }
      RunIsFreed(was, upTo, i);
      RingDrop(buffer, start, count, cap, i);
      count := count - i;
      start := idx;
      tally := tally.Did(OpFreeTo(upTo));
    }

    /** Frees the oldest value and what follows it up to a greater one; an empty window is left alone. */
    method FreeFirstOne()
      requires Valid() && tally.FirstReadable(cap)
      modifies this`start, this`count, this`tally
      ensures Valid() && tally == old(tally).(window := Contents())
      ensures Contents() == if old(Contents()) == [] then [] else FreedTo(old(Contents()), old(Contents())[0])
    {
      FirstReadableExactly();
      var first := buffer[start];
      assert count > 0 ==> Contents()[0] == first;
      FreeTo(first);
    }

    method Reset()
      requires Valid()
      modifies this`start, this`count, this`tally
      ensures Valid() && Contents() == [] && tally == old(tally).Did(OpReset)
    {
      count := 0;
      start := 0;
      tally := tally.Did(OpReset);
    }
  }

  lemma {:induction false} RunIsFreed(ins: seq<nat>, upTo: nat, n: nat)
    requires n <= |ins|
    requires forall k :: 0 <= k < n ==> ins[k] <= upTo
    requires n < |ins| ==> ins[n] > upTo
    ensures FreedTo(ins, upTo) == ins[n..]
  {
    if n > 0 {
      var rest := ins[1..];
      forall k | 0 <= k < n - 1 ensures rest[k] <= upTo { assert rest[k] == ins[k + 1]; }
      RunIsFreed(rest, upTo, n - 1);
      assert rest[n - 1..] == ins[n..];
    }
  }

  /** The second of these runs on the object: the slot that would be read does not exist. */
  method UsedWindowCannotFreeFirst() returns (w: Inflights)
    ensures w.Valid() && w.cap == 3 && w.tally == NOTHING.Did(OpAdd(7)).Did(OpFreeTo(7)) && w.start >= |w.buffer|
  {
    w := new Inflights(3);
    w.Add(7);
    w.FreeTo(7);
    assert [7][1..] == [];
    w.FirstReadableExactly();
  }
}
