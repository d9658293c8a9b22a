/** The two tiers of the log as values: how a stored part and an unstable tail stand for one simple
    log, and what any sequence of operations makes of them. */
module LogTiers {
  import opened RaftTypes
  import opened AbstractLog
  import opened MemoryStorage

  /** The two tiers as values: what is stored (behind its dummy), a snapshot not yet stored, and the
      unstable entries from `offset` on. A stored tail at or past `offset` is stale. */
  datatype Tiers = Tiers(stored: seq<Entry>, snapshot: Option<Snapshot>, unstable: seq<Entry>, offset: nat) {

    ghost predicate Valid() {
      && Tier(stored) && Contiguous(unstable, offset)
      && (snapshot.Some? ==> offset == snapshot.value.index + 1)
      && (snapshot.None? ==> stored[0].index < offset <= LastIndexOf(stored) + 1)
      && (snapshot.None? && unstable == [] ==> offset == LastIndexOf(stored) + 1)
    }

    ghost function Base(): nat
      requires Valid()
    {
      if snapshot.Some? then snapshot.value.index else stored[0].index
    }

    ghost function BaseTerm(): nat
      requires Valid()
    {
      if snapshot.Some? then snapshot.value.term else stored[0].term
    }

    /** The stored entries below the offset, then the unstable ones: what is stale never shows. */
    ghost function Ents(): seq<Entry>
      requires Valid()
    {
      if snapshot.Some? then unstable else stored[1..offset - stored[0].index] + unstable
    }

    /** `truncate_and_append`. */
    function Appended(es: seq<Entry>): Tiers
      requires es != [] ==> es[0].index <= offset + |unstable|
    {
      if es == [] then this
      else this.(offset := Min(offset, es[0].index),
                 unstable := if es[0].index < offset then es else unstable[..es[0].index - offset] + es)
    }

    /** `store.append` of the unstable entries. */
    function Flushed(): Tiers
      requires stored != []
    {
      this.(stored := Overlay(stored, unstable))
    }

    /** What `last_index` answers, whether or not the tiers fit together. */
    function LastAnswer(): nat
      requires stored != []
    {
      if unstable != [] && offset >= 1 then offset + |unstable| - 1
      else if snapshot.Some? then snapshot.value.index
      else LastIndexOf(stored)
    }

    /** The acknowledgement `(idx, term)` names an unstable entry, so `stable_to` drops it and all
        before it. */
    predicate Acknowledges(idx: nat, term: nat) {
      offset <= idx < offset + |unstable| && unstable[idx - offset].term == term
    }

    function Acknowledged(idx: nat, term: nat): Tiers {
      if Acknowledges(idx, term) then this.(unstable := unstable[idx + 1 - offset..], offset := idx + 1) else this
    }

    /** What makes an acknowledgement safe: it names nothing, or the store holds exactly the entries
        being dropped, and nothing beyond them unless unstable entries remain. */
    predicate Durable(idx: nat, term: nat)
      requires stored != []
    {
      Acknowledges(idx, term) ==>
        && snapshot.None?
        && stored[0].index < offset
        && idx <= LastIndexOf(stored)
        && stored[offset - stored[0].index..idx + 1 - stored[0].index] == unstable[..idx + 1 - offset]
        && (idx == offset + |unstable| - 1 ==> idx == LastIndexOf(stored))
    }
  }

  // ---- slices of the joined log ----

  lemma SliceBelow<T>(s: seq<T>, u: seq<T>, m: nat, lo: nat, hi: nat)
    requires 1 <= m <= |s| && lo <= hi <= m - 1
    ensures (s[1..m] + u)[lo..hi] == s[lo + 1..hi + 1]
  {
    var left := s[1..m];
    var whole := (left + u)[lo..hi];
    forall k | 0 <= k < |whole| ensures whole[k] == s[lo + 1 + k] {
      assert whole[k] == (left + u)[lo + k] == left[lo + k];
    }
  }

  lemma SliceAbove<T>(s: seq<T>, u: seq<T>, m: nat, lo: nat, hi: nat)
    requires 1 <= m <= |s| && m - 1 <= lo <= hi <= m - 1 + |u|
    ensures (s[1..m] + u)[lo..hi] == u[lo - (m - 1)..hi - (m - 1)]
  {
    var left := s[1..m];
    var whole := (left + u)[lo..hi];
    forall k | 0 <= k < |whole| ensures whole[k] == u[lo - (m - 1) + k] {
      assert whole[k] == (left + u)[lo + k];
    }
  }

  lemma SliceAcross<T>(s: seq<T>, u: seq<T>, m: nat, lo: nat, hi: nat)
    requires 1 <= m <= |s| && lo <= m - 1 <= hi <= m - 1 + |u|
    ensures (s[1..m] + u)[lo..hi] == s[lo + 1..m] + u[..hi - (m - 1)]
  {
    var joined := s[1..m] + u;
    assert joined[lo..hi] == joined[lo..m - 1] + joined[m - 1..hi];
    SliceBelow(s, u, m, lo, m - 1);
    SliceAbove(s, u, m, m - 1, hi);
    assert u[0..hi - (m - 1)] == u[..hi - (m - 1)];
  }

  /** Moving the border of `s[1..m] + u` to the right over equal entries changes nothing. */
  lemma JoinedShift<T>(s: seq<T>, u: seq<T>, m: nat, n: nat)
    requires 1 <= m <= m + n <= |s| && n <= |u| && s[m..m + n] == u[..n]
    ensures s[1..m + n] + u[n..] == s[1..m] + u
  {
    var a, b := s[1..m + n] + u[n..], s[1..m] + u;
    forall k | 0 <= k < |a| ensures a[k] == b[k] {
      if m - 1 <= k < m - 1 + n { assert s[m..m + n][k - (m - 1)] == u[..n][k - (m - 1)]; }
    }
  }

  /** And if it changes nothing, the entries were equal. */
  lemma JoinedShiftBack<T>(s: seq<T>, u: seq<T>, m: nat, n: nat)
    requires 1 <= m <= m + n <= |s| && n <= |u| && s[1..m + n] + u[n..] == s[1..m] + u
    ensures s[m..m + n] == u[..n]
  {
    var a, b := s[1..m + n] + u[n..], s[1..m] + u;
    forall k | 0 <= k < n ensures s[m..m + n][k] == u[..n][k] {
      assert a[m - 1 + k] == b[m - 1 + k];
    }
  }

  lemma EntsIndexed(t: Tiers)
    requires t.Valid()
    ensures Contiguous(t.Ents(), t.Base() + 1)
  {
    if t.snapshot.None? {
      var es, base := t.Ents(), t.Base();
      forall k | 0 <= k < |es| ensures es[k].index == base + 1 + k {
        if k < t.offset - 1 - base {
          assert es[k] == t.stored[k + 1];
        } else {
          assert es[k] == t.unstable[k - (t.offset - 1 - base)];
        }
      }
    }
  }

  lemma DurableKeeps(t: Tiers, idx: nat, term: nat)
    requires t.Valid() && t.Durable(idx, term)
    ensures var u := t.Acknowledged(idx, term);
            u.Valid() && u.Ents() == t.Ents() && u.Base() == t.Base() && u.BaseTerm() == t.BaseTerm()
  {
    if t.Acknowledges(idx, term) {
      var u := t.Acknowledged(idx, term);
      JoinedShift(t.stored, t.unstable, t.offset - t.stored[0].index, idx + 1 - t.offset);
      forall k | 0 <= k < |u.unstable| ensures u.unstable[k].index == u.offset + k {
        assert u.unstable[k] == t.unstable[k + idx + 1 - t.offset];
      }
    }
  }

  /** An acknowledgement, however late, leaves two tiers that fit together and the same log exactly when
      it is durable. This is about the representation: with a snapshot pending whose base the store
      happens to hold, some acknowledgements that are not durable change no answer either. */
  lemma StableToExact(t: Tiers, idx: nat, term: nat)
    requires t.Valid()
    ensures var u := t.Acknowledged(idx, term);
            t.Durable(idx, term) <==> u.Valid() && u.Ents() == t.Ents() && u.Base() == t.Base()
  {
    var u := t.Acknowledged(idx, term);
    if t.Durable(idx, term) {
      DurableKeeps(t, idx, term);
    } else if u.Valid() && u.Base() == t.Base() && u.Ents() == t.Ents() {
      SameMeansDurable(t, idx, term);
    }
  }

  lemma SameMeansDurable(t: Tiers, idx: nat, term: nat)
    requires t.Valid() && t.Acknowledges(idx, term) && t.Acknowledged(idx, term).Valid()
    requires t.Acknowledged(idx, term).Ents() == t.Ents()
    ensures t.Durable(idx, term)
  {
    JoinedShiftBack(t.stored, t.unstable, t.offset - t.stored[0].index, idx + 1 - t.offset);
  }

  /** What appending to the unstable tail makes of the joined log. */
  lemma AppendTiers(t: Tiers, es: seq<Entry>)
    requires t.Valid() && es != [] && Contiguous(es, es[0].index)
    requires t.Base() < es[0].index <= t.offset + |t.unstable|
    ensures var u := t.Appended(es);
            && u.Valid() && u.Base() == t.Base() && u.BaseTerm() == t.BaseTerm()
            && u.Ents() == t.Ents()[..es[0].index - 1 - t.Base()] + es
  {
    AppendFits(t, es);
    if t.snapshot.None? {
      EntsJoined(t);
      EntsJoined(t.Appended(es));
      JoinedAppend(t.stored, t.unstable, es, t.offset - t.Base(), es[0].index - 1 - t.Base());
    }
  }

  lemma AppendFits(t: Tiers, es: seq<Entry>)
    requires t.Valid() && es != [] && Contiguous(es, es[0].index)
    requires t.Base() < es[0].index <= t.offset + |t.unstable|
    ensures t.Appended(es).Valid()
  {
    var u := t.Appended(es);
    var kept := if es[0].index < t.offset then [] else t.unstable[..es[0].index - t.offset];
    assert u.unstable == kept + es;
    forall k | 0 <= k < |u.unstable| ensures u.unstable[k].index == u.offset + k {
      if k < |kept| { assert u.unstable[k] == t.unstable[k]; } else { assert u.unstable[k] == es[k - |kept|]; }
    }
  }

  /** Replacing the end of a joined sequence, from place `n` on, in its stored part or in its tail. */
  lemma JoinedAppend<T>(s: seq<T>, u: seq<T>, es: seq<T>, m: nat, n: nat)
    requires 1 <= m <= |s| && n <= m - 1 + |u|
    ensures (s[1..m] + u)[..n] + es ==
            if n < m - 1 then s[1..n + 1] + es else s[1..m] + (u[..n - (m - 1)] + es)
  {
    var joined := s[1..m] + u;
    assert joined[..n] == joined[0..n];
    if n < m - 1 {
      SliceBelow(s, u, m, 0, n);
    } else {
      SliceAcross(s, u, m, 0, n);
      var kept := u[..n - (m - 1)];
      assert (s[1..m] + kept) + es == s[1..m] + (kept + es);
    }
  }

  /** Flushing writes the unstable entries over whatever the store held there. */
  lemma FlushTiers(t: Tiers)
    requires t.Valid() && t.snapshot.None?
    ensures Adjoins(t.stored, t.unstable)
    ensures var u := t.Flushed();
            && u.Valid() && u.Ents() == t.Ents() && u.Base() == t.Base() && u.BaseTerm() == t.BaseTerm()
            && u.stored[1..] == u.Ents()
  {
    if t.unstable != [] {
      FlushStore(t.stored, t.unstable, t.offset - t.stored[0].index);
      OverlayPointwise(t.stored, t.unstable);
    }
  }

  /** The store after a flush: its part below the offset, then the flushed entries. */
  lemma FlushStore(s: seq<Entry>, u: seq<Entry>, m: nat)
    requires Tier(s) && 1 <= m <= |s| && u != [] && u[0].index == s[0].index + m
    ensures var r := Overlay(s, u);
            && r == s[..m] + u && r[1..m] == s[1..m] && r[1..] == s[1..m] + u && m <= |r| && r[0] == s[0]
  {
    assert u[0..] == u;
    var r := s[..m] + u;
    assert r[1..m] == s[1..m] && r[1..] == s[1..m] + u;
  }

  /** The part of a range that lies below the offset, of a store whose dummy is at `b`. */
  ghost function StoredRange<T>(s: seq<T>, b: nat, off: nat, low: nat, high: nat): seq<T>
    requires low <= high && (low < off ==> b <= low && Min(high, off) - b <= |s|)
  {
    if low < off then s[low - b..Min(high, off) - b] else []
  }

  /** The part of a range at or above the offset. */
  ghost function TailRange<T>(u: seq<T>, off: nat, low: nat, high: nat): seq<T>
    requires low <= high <= off + |u|
  {
    if high > off then u[Max(low, off) - off..high - off] else []
  }

  lemma JoinedRange<T>(s: seq<T>, u: seq<T>, b: nat, off: nat, low: nat, high: nat)
    requires 1 <= off - b <= |s| && b < low <= high <= off + |u|
    ensures (s[1..off - b] + u)[low - b - 1..high - b - 1] ==
            StoredRange(s, b, off, low, high) + TailRange(u, off, low, high)
  {
    if high <= off {
      RangeBelow(s, u, b, off, low, high);
    } else if low >= off {
      SliceAbove(s, u, off - b, low - b - 1, high - b - 1);
      assert StoredRange(s, b, off, low, high) == [];
    } else {
      RangeAcross(s, u, b, off, low, high);
    }
  }

  lemma RangeBelow<T>(s: seq<T>, u: seq<T>, b: nat, off: nat, low: nat, high: nat)
    requires 1 <= off - b <= |s| && b < low <= high <= off
    ensures (s[1..off - b] + u)[low - b - 1..high - b - 1] ==
            StoredRange(s, b, off, low, high) + TailRange(u, off, low, high)
  {
    SliceBelow(s, u, off - b, low - b - 1, high - b - 1);
    var part := StoredRange(s, b, off, low, high);
    assert part == s[low - b..high - b] && part + [] == part;
  }

  lemma RangeAcross<T>(s: seq<T>, u: seq<T>, b: nat, off: nat, low: nat, high: nat)
    requires 1 <= off - b <= |s| && b < low < off < high <= off + |u|
    ensures (s[1..off - b] + u)[low - b - 1..high - b - 1] ==
            StoredRange(s, b, off, low, high) + TailRange(u, off, low, high)
  {
    SliceAcross(s, u, off - b, low - b - 1, high - b - 1);
    assert u[0..high - off] == u[..high - off];
  }

  /** The store below the offset and the tail, without a snapshot in between. */
  lemma EntsJoined(t: Tiers)
    requires t.Valid() && t.snapshot.None?
    ensures t.Base() == t.stored[0].index && 1 <= t.offset - t.Base() <= |t.stored|
    ensures t.Ents() == t.stored[1..t.offset - t.Base()] + t.unstable
  {
  }

  lemma RangeStored(es: seq<Entry>, s: seq<Entry>, u: seq<Entry>, b: nat, off: nat, low: nat, high: nat)
    requires 1 <= off - b <= |s| && es == s[1..off - b] + u && b < low <= high <= off + |u|
    ensures es[low - b - 1..high - b - 1] == StoredRange(s, b, off, low, high) + TailRange(u, off, low, high)
  {
    JoinedRange(s, u, b, off, low, high);
  }

  /** With a snapshot pending nothing of a range lies in the store. */
  lemma RangePending(s: seq<Entry>, u: seq<Entry>, b: nat, off: nat, low: nat, high: nat)
    requires off <= low <= high <= off + |u|
    ensures u[low - off..high - off] == StoredRange(s, b, off, low, high) + TailRange(u, off, low, high)
  {
    var part, rest := StoredRange(s, b, off, low, high), TailRange(u, off, low, high);
    assert part + rest == rest;
  }

  /** A range of the log is what lies in the store below the offset and what lies in the tail. */
  lemma RangeParts(t: Tiers, low: nat, high: nat) returns (part: seq<Entry>, rest: seq<Entry>)
    requires t.Valid() && t.Base() < low < high <= t.Base() + |t.Ents()| + 1
    ensures low < t.offset ==> t.stored[0].index <= low && Min(high, t.offset) - t.stored[0].index <= |t.stored|
    ensures high <= t.offset + |t.unstable|
    ensures part == StoredRange(t.stored, t.stored[0].index, t.offset, low, high)
    ensures rest == TailRange(t.unstable, t.offset, low, high)
    ensures part + rest == t.Ents()[low - t.Base() - 1..high - t.Base() - 1]
  {
    if t.snapshot.None? {
      part, rest := RangeBelowTail(t, low, high);
    } else {
      part, rest := [], TailRange(t.unstable, t.offset, low, high);
      RangePending(t.stored, t.unstable, t.stored[0].index, t.offset, low, high);
    }
  }

  lemma RangeBelowTail(t: Tiers, low: nat, high: nat) returns (part: seq<Entry>, rest: seq<Entry>)
    requires t.Valid() && t.snapshot.None? && t.Base() < low < high <= t.Base() + |t.Ents()| + 1
    ensures t.Base() == t.stored[0].index && high <= t.offset + |t.unstable|
    ensures low < t.offset ==> Min(high, t.offset) - t.Base() <= |t.stored|
    ensures part == StoredRange(t.stored, t.Base(), t.offset, low, high)
    ensures rest == TailRange(t.unstable, t.offset, low, high)
    ensures part + rest == t.Ents()[low - t.Base() - 1..high - t.Base() - 1]
  {
    EntsJoined(t);
    RangeStored(t.Ents(), t.stored, t.unstable, t.Base(), t.offset, low, high);
    part := StoredRange(t.stored, t.Base(), t.offset, low, high);
    rest := TailRange(t.unstable, t.offset, low, high);
  }

  /** Dropping stored entries up to `d` drops the same entries of the joined log. */
  lemma JoinedCompact<T>(s: seq<T>, u: seq<T>, m: nat, d: nat)
    requires 1 <= m <= |s| && d < m
    ensures (s[1..m] + u)[d..] == s[d..][1..m - d] + u
  {
    var joined := s[1..m] + u;
    SliceAcross(s, u, m, d, |joined|);
    assert joined[d..] == joined[d..|joined|];
    assert u[..|u|] == u;
    var rest := s[d..];
    var kept := rest[1..m - d];
    forall k | 0 <= k < |kept| ensures kept[k] == s[d + 1 + k] { assert kept[k] == rest[k + 1]; }
    assert kept == s[d + 1..m];
  }

  // ---- the whole log as a value ----

  /** The two tiers with the commit and apply marks. */
  datatype Stack = Stack(t: Tiers, committed: nat, applied: nat) {
    ghost predicate Valid() {
      t.Valid() && t.Base() <= committed <= t.Base() + |t.Ents()|
    }

    /** The simple log this one stands for. */
    ghost function Log(): Log
      requires t.Valid()
    {
      AbstractLog.Log(t.Base(), t.BaseTerm(), t.Ents(), committed, applied)
    }
  }

  datatype TierOp =
    | Put(es: seq<Entry>)
    | Merge(idx: nat, term: nat, commit: nat, es: seq<Entry>)
    | Commit(idx: nat)
    | Apply(idx: nat)
    | Ack(idx: nat, term: nat)
    | Flush
    | Restore(s: Snapshot)
    | StoreSnapshot
    | Compact(idx: nat)

  /** What the source insists on; acknowledgements are durable ones, and compaction stays below the
      offset and at or below what is committed. */
  ghost predicate Takes(s: Stack, op: TierOp)
    requires s.Valid()
  {
    match op
    case Put(es) => s.Log().CanOverwrite(es) && (es != [] ==> Contiguous(es, es[0].index))
    case Merge(idx, term, commit, es) => s.Log().MatchTerm(idx, term) ==> s.Log().Merges(idx, commit, es)
    case Commit(idx) => s.Log().CanCommit(idx)
    case Apply(idx) => s.Log().CanApply(idx)
    case Ack(idx, term) => s.t.Durable(idx, term)
    case Flush => s.t.snapshot.None?
    case Restore(_) => true
    case StoreSnapshot => s.t.snapshot.Some?
    case Compact(idx) => s.t.snapshot.None? && s.t.stored[0].index <= idx < s.t.offset && idx <= s.committed
  }

  /** What an operation makes of the tiers. */
  ghost function Did(s: Stack, op: TierOp): Stack
    requires s.Valid() && Takes(s, op)
  {
    match op
    case Put(es) => s.(t := s.t.Appended(es))
    case Merge(idx, term, commit, es) =>
      if !s.Log().MatchTerm(idx, term) then s
      else
        s.(t := s.t.Appended(s.Log().NewSuffix(idx, es)),
           committed := Max(s.committed, Min(commit, idx + |es|)))
    case Commit(idx) => s.(committed := Max(s.committed, idx))
    case Apply(idx) => if idx == 0 then s else s.(applied := idx)
    case Ack(idx, term) => s.(t := s.t.Acknowledged(idx, term))
    case Flush => s.(t := s.t.Flushed())
    case Restore(p) => s.(t := s.t.(snapshot := Some(p), unstable := [], offset := p.index + 1), committed := p.index)
    case StoreSnapshot =>
      var p := s.t.snapshot.value;
      s.(t := s.t.(stored := [Entry(EntryNormal, p.term, p.index, [])], snapshot := None))
    case Compact(idx) => s.(t := s.t.(stored := s.t.stored[idx - s.t.stored[0].index..]))
  }

  /** What it makes of the simple log: flushing and storing are invisible. */
  ghost function Meant(l: Log, op: TierOp): Log
    requires op.Put? ==> l.CanOverwrite(op.es)
    requires op.Merge? ==> l.MatchTerm(op.idx, op.term) ==> l.Merges(op.idx, op.commit, op.es)
    requires op.Compact? ==> l.base <= op.idx <= l.LastIndex()
  {
    match op
    case Put(es) => l.Overwrite(es)
    case Merge(idx, term, commit, es) =>
      (match l.MaybeAppend(idx, term, commit, es) case Accepted(n, _) => n case _ => l)
    case Commit(idx) => l.CommitTo(idx)
    case Apply(idx) => l.AppliedTo(idx)
    case Restore(p) => l.Restore(p)
    case Compact(idx) => l.CompactTo(idx)
    case _ => l
  }

  lemma PutRefines(s: Stack, es: seq<Entry>)
    requires s.Valid() && Takes(s, Put(es))
    ensures Did(s, Put(es)).Valid() && Did(s, Put(es)).Log() == s.Log().Overwrite(es)
  {
    if es != [] { AppendTiers(s.t, es); }
  }

  lemma MergeRefines(s: Stack, idx: nat, term: nat, commit: nat, es: seq<Entry>)
    requires s.Valid() && Takes(s, Merge(idx, term, commit, es))
    ensures Did(s, Merge(idx, term, commit, es)).Valid()
    ensures Did(s, Merge(idx, term, commit, es)).Log() == Meant(s.Log(), Merge(idx, term, commit, es))
  {
    var l := s.Log();
    if l.MatchTerm(idx, term) {
      MergeMatched(s, l, idx, commit, es);
      MergeMeant(l, idx, term, commit, es, l.NewSuffix(idx, es), Min(commit, idx + |es|));
    }
  }

  lemma MergeMatched(s: Stack, l: Log, idx: nat, commit: nat, es: seq<Entry>)
    requires s.Valid() && l == s.Log() && l.Merges(idx, commit, es)
    ensures var suffix, mark := l.NewSuffix(idx, es), Min(commit, idx + |es|);
            && (suffix != [] ==> suffix[0].index <= s.t.offset + |s.t.unstable|)
            && var u := s.(t := s.t.Appended(suffix), committed := Max(s.committed, mark));
               u.Valid() && u.Log() == l.Overwrite(suffix).CommitTo(mark)
  {
    SuffixPut(l, idx, commit, es);
    PutThenCommit(s, l.NewSuffix(idx, es), Min(commit, idx + |es|));
  }

  lemma MergeMeant(l: Log, idx: nat, term: nat, commit: nat, es: seq<Entry>, suffix: seq<Entry>, mark: nat)
    requires l.MatchTerm(idx, term) && l.Merges(idx, commit, es)
    requires suffix == l.NewSuffix(idx, es) && mark == Min(commit, idx + |es|)
    ensures Meant(l, Merge(idx, term, commit, es)) == l.Overwrite(suffix).CommitTo(mark)
  {
  }

  lemma PutThenCommit(s: Stack, es: seq<Entry>, mark: nat)
    requires s.Valid() && Takes(s, Put(es)) && s.Log().Overwrite(es).CanCommit(mark)
    ensures var u := s.(t := s.t.Appended(es), committed := Max(s.committed, mark));
            u.Valid() && u.Log() == s.Log().Overwrite(es).CommitTo(mark)
  {
    PutRefines(s, es);
  }

  lemma CompactRefines(s: Stack, idx: nat)
    requires s.Valid() && Takes(s, Compact(idx))
    ensures Did(s, Compact(idx)).Valid() && Did(s, Compact(idx)).Log() == s.Log().CompactTo(idx)
  {
    CompactTiers(s.t, idx);
    CompactTerm(s.t, idx);
  }

  /** The store knows the term the log has at the compaction point. */
  lemma CompactTerm(t: Tiers, idx: nat)
    requires t.Valid() && t.snapshot.None? && t.stored[0].index <= idx < t.offset
    ensures t.Base() == t.stored[0].index && idx - t.Base() <= |t.Ents()|
    ensures t.stored[idx - t.Base()].term == if idx == t.Base() then t.BaseTerm() else t.Ents()[idx - t.Base() - 1].term
  {
    EntsJoined(t);
  }

  lemma CompactTiers(t: Tiers, idx: nat)
    requires t.Valid() && t.snapshot.None? && t.stored[0].index <= idx < t.offset
    ensures var u := t.(stored := t.stored[idx - t.stored[0].index..]);
            u.Valid() && u.Base() == idx && u.Ents() == t.Ents()[idx - t.Base()..] &&
            u.BaseTerm() == t.stored[idx - t.stored[0].index].term
  {
    var b := t.stored[0].index;
    JoinedCompact(t.stored, t.unstable, t.offset - b, idx - b);
    TierDropped(t.stored, idx - b);
  }

  lemma TierDropped(s: seq<Entry>, d: nat)
    requires Tier(s) && d < |s|
    ensures Tier(s[d..]) && s[d..][0] == s[d] && s[d].index == s[0].index + d && LastIndexOf(s[d..]) == LastIndexOf(s)
  {
    forall k | 0 <= k < |s[d..]| ensures s[d..][k].index == s[d].index + k { assert s[d..][k] == s[k + d]; }
  }

  lemma SnapshotRefines(s: Stack, op: TierOp)
    requires s.Valid() && Takes(s, op) && (op.Restore? || op.StoreSnapshot?)
    ensures Did(s, op).Valid() && Did(s, op).Log() == Meant(s.Log(), op)
  {
    if op.StoreSnapshot? {
      var u := Did(s, op);
      assert u.t.stored[1..u.t.offset - u.t.stored[0].index] == [];
    }
  }

  /** With a snapshot pending nothing of the store shows. */
  lemma StoreHidden(s: Stack, stored: seq<Entry>)
    requires s.Valid() && s.t.snapshot.Some? && Tier(stored)
    ensures var u := s.(t := s.t.(stored := stored)); u.Valid() && u.Log() == s.Log()
  {
  }

  lemma CompactDone(s: Stack, idx: nat, stored: seq<Entry>)
    requires s.Valid() && Takes(s, Compact(idx)) && stored == s.t.stored[idx - s.t.stored[0].index..]
    ensures var u := s.(t := s.t.(stored := stored));
            u.Valid() && u == Did(s, Compact(idx)) && u.Log() == s.Log().CompactTo(idx)
  {
    CompactRefines(s, idx);
  }

  lemma TierFrom(stored: seq<Entry>, idx: nat, rest: seq<Entry>)
    requires Tier(stored) && idx <= LastIndexOf(stored)
    requires rest == if idx <= stored[0].index then stored else stored[idx - stored[0].index..]
    ensures Tier(rest)
  {
    forall k | 0 <= k < |rest| ensures rest[k].index == rest[0].index + k {
      if idx > stored[0].index { assert rest[k] == stored[k + idx - stored[0].index]; }
    }
  }

  /** What compacting the store at any stored index leaves. */
  lemma CompactedStore(s: Stack, idx: nat, stored: seq<Entry>)
    requires s.Valid() && idx <= LastIndexOf(s.t.stored)
    requires stored == if idx <= s.t.stored[0].index then s.t.stored else s.t.stored[idx - s.t.stored[0].index..]
    ensures Tier(stored)
    ensures var u := s.(t := s.t.(stored := stored));
            && (s.t.snapshot.Some? ==> u.Valid() && u.Log() == s.Log())
            && (Takes(s, Compact(idx)) ==> u.Valid() && u == Did(s, Compact(idx)) && u.Log() == s.Log().CompactTo(idx))
  {
    TierFrom(s.t.stored, idx, stored);
    if s.t.snapshot.Some? { StoreHidden(s, stored); }
    if Takes(s, Compact(idx)) {
      assert s.t.stored[0..] == s.t.stored;
      CompactDone(s, idx, stored);
    }
  }

  lemma MergeDid(s: Stack, idx: nat, term: nat, commit: nat, es: seq<Entry>)
    requires s.Valid() && s.Log().MatchTerm(idx, term) && s.Log().Merges(idx, commit, es)
    ensures Takes(s, Merge(idx, term, commit, es))
    ensures Did(s, Merge(idx, term, commit, es)) ==
            s.(t := s.t.Appended(s.Log().NewSuffix(idx, es)), committed := Max(s.committed, Min(commit, idx + |es|)))
  {
  }

  lemma MarkRefines(s: Stack, op: TierOp)
    requires s.Valid() && Takes(s, op) && (op.Commit? || op.Apply?)
    ensures Did(s, op).Valid() && Did(s, op).Log() == Meant(s.Log(), op)
  {
  }

  /** Every operation does to the simple log what it is meant to. */
  lemma DidRefines(s: Stack, op: TierOp)
    requires s.Valid() && Takes(s, op)
    ensures Did(s, op).Valid() && Did(s, op).Log() == Meant(s.Log(), op)
  {
    match op {
      case Put(es) => PutRefines(s, es);
      case Merge(idx, term, commit, es) => MergeRefines(s, idx, term, commit, es);
      case Ack(idx, term) => DurableKeeps(s.t, idx, term);
      case Flush => FlushTiers(s.t);
      case Compact(idx) => CompactRefines(s, idx);
      case Commit(_) => MarkRefines(s, op);
      case Apply(_) => MarkRefines(s, op);
      case Restore(_) => SnapshotRefines(s, op);
      case StoreSnapshot => SnapshotRefines(s, op);
    }
  }

  // ---- any sequence of operations ----

  ghost predicate Ran(s: Stack, ops: seq<TierOp>, s': Stack)
    requires s.Valid()
    decreases |ops|
  {
    if ops == [] then s' == s
    else
      Takes(s, ops[0]) &&
      (DidRefines(s, ops[0]);
       Ran(Did(s, ops[0]), ops[1..], s'))
  }

  ghost predicate RanMeant(l: Log, ops: seq<TierOp>, l': Log)
    decreases |ops|
  {
    if ops == [] then l' == l
    else
      && (ops[0].Put? ==> l.CanOverwrite(ops[0].es))
      && (ops[0].Merge? ==> l.MatchTerm(ops[0].idx, ops[0].term) ==> l.Merges(ops[0].idx, ops[0].commit, ops[0].es))
      && (ops[0].Compact? ==> l.base <= ops[0].idx <= l.LastIndex())
      && RanMeant(Meant(l, ops[0]), ops[1..], l')
  }

  /** Over every run the two tiers stand for the one simple log those operations make. */
  lemma {:induction false} RunRefines(s: Stack, ops: seq<TierOp>, s': Stack)
    requires s.Valid() && Ran(s, ops, s')
    ensures s'.Valid() && RanMeant(s.Log(), ops, s'.Log())
    decreases |ops|
  {
    if ops != [] {
      DidRefines(s, ops[0]);
      RunRefines(Did(s, ops[0]), ops[1..], s');
    }
  }

  // ---- the acknowledgement of a flush ----

  /** Appends, commits, compactions and durable acknowledgements: what may happen between a flush and its
      acknowledgement. */
  predicate InBetween(op: TierOp) { op.Put? || op.Merge? || op.Commit? || op.Apply? || op.Ack? || op.Compact? }

  ghost predicate AllInBetween(ops: seq<TierOp>) { forall k :: 0 <= k < |ops| ==> InBetween(ops[k]) }

  ghost predicate SuffixOf<T>(a: seq<T>, b: seq<T>) { 0 < |a| <= |b| && a == b[|b| - |a|..] }

  lemma SuffixTrans<T>(a: seq<T>, b: seq<T>, c: seq<T>)
    requires SuffixOf(a, b) && SuffixOf(b, c)
    ensures SuffixOf(a, c)
  {
  }

  /** Of the store at most a front part is gone by then. */
  lemma {:induction false} StoreTrimmed(s: Stack, ops: seq<TierOp>, s': Stack)
    requires s.Valid() && Ran(s, ops, s') && AllInBetween(ops) && s.t.snapshot.None?
    ensures s'.Valid() && SuffixOf(s'.t.stored, s.t.stored) && s'.t.snapshot.None?
    decreases |ops|
  {
    if ops != [] {
      DidRefines(s, ops[0]);
      assert InBetween(ops[0]);
      OneTrims(s, ops[0]);
      var rest := ops[1..];
      forall k | 0 <= k < |rest| ensures InBetween(rest[k]) { assert InBetween(ops[k + 1]); }
      StoreTrimmed(Did(s, ops[0]), rest, s');
      SuffixTrans(s'.t.stored, Did(s, ops[0]).t.stored, s.t.stored);
    }
  }

  lemma OneTrims(s: Stack, op: TierOp)
    requires s.Valid() && Takes(s, op) && InBetween(op) && s.t.snapshot.None?
    ensures SuffixOf(Did(s, op).t.stored, s.t.stored) && Did(s, op).t.snapshot.None?
  {
  }

  function EntryAt(l: Log, i: nat): Entry
    requires l.base < i <= l.LastIndex()
  {
    l.ents[i - l.base - 1]
  }

  /** Both logs hold an entry at index `i`. */
  predicate Share(a: Log, b: Log, i: nat) {
    a.base < i <= a.LastIndex() && b.base < i <= b.LastIndex()
  }

  ghost predicate SameUpTo(a: Log, b: Log, i: nat) {
    forall j: nat :: j <= i && Share(a, b, j) ==> EntryAt(a, j) == EntryAt(b, j)
  }

  /** Log Matching: an equal term at one index means equal entries up to it, wherever the logs start. */
  ghost predicate LogsMatch(a: Log, b: Log) {
    forall i: nat :: Share(a, b, i) && EntryAt(a, i).term == EntryAt(b, i).term ==> SameUpTo(a, b, i)
  }

  lemma TailEntry(t: Tiers, l: Log, i: nat)
    requires t.Valid() && l.base == t.Base() && l.ents == t.Ents() && t.offset <= i < t.offset + |t.unstable|
    ensures l.base < i <= l.LastIndex() && EntryAt(l, i) == t.unstable[i - t.offset]
  {
  }

  /** The store after a flush holds the log; what is left of it later holds the same at each index. */
  lemma FlushedEntry(stored: seq<Entry>, flushed: seq<Entry>, l: Log, i: nat)
    requires Tier(stored) && Tier(flushed) && SuffixOf(stored, flushed)
    requires l.base == flushed[0].index && l.ents == flushed[1..] && stored[0].index < i <= LastIndexOf(stored)
    ensures l.base < i <= l.LastIndex() && EntryAt(l, i) == stored[i - stored[0].index]
    ensures LastIndexOf(stored) == LastIndexOf(flushed)
  {
    var d := |flushed| - |stored|;
    assert stored[0] == flushed[d];
    assert stored[i - stored[0].index] == flushed[d + i - stored[0].index];
  }

  /** The end of what was flushed may be acknowledged. */
  lemma EndDurable(t: Tiers, l: Log, flushed: seq<Entry>, f: Log)
    requires t.Valid() && t.snapshot.None? && l.base == t.Base() && l.ents == t.Ents()
    requires Tier(flushed) && SuffixOf(t.stored, flushed) && f.base == flushed[0].index && f.ents == flushed[1..]
    requires LogsMatch(l, f)
    ensures LastIndexOf(t.stored) == LastIndexOf(flushed)
    ensures t.Durable(LastIndexOf(flushed), flushed[|flushed| - 1].term)
  {
    var idx, term := LastIndexOf(flushed), flushed[|flushed| - 1].term;
    assert t.stored[|t.stored| - 1] == flushed[|flushed| - 1];
    if t.Acknowledges(idx, term) {
      TailEntry(t, l, idx);
      FlushedEntry(t.stored, flushed, f, idx);
      assert Share(l, f, idx) && SameUpTo(l, f, idx);
      TailSame(t, l, flushed, f, idx);
    }
  }

  lemma TailSame(t: Tiers, l: Log, flushed: seq<Entry>, f: Log, idx: nat)
    requires t.Valid() && t.snapshot.None? && l.base == t.Base() && l.ents == t.Ents()
    requires Tier(flushed) && SuffixOf(t.stored, flushed) && f.base == flushed[0].index && f.ents == flushed[1..]
    requires t.offset <= idx <= LastIndexOf(t.stored) && idx < t.offset + |t.unstable| && SameUpTo(l, f, idx)
    ensures t.stored[t.offset - t.stored[0].index..idx + 1 - t.stored[0].index] == t.unstable[..idx + 1 - t.offset]
  {
    var b := t.stored[0].index;
    var left, right := t.stored[t.offset - b..idx + 1 - b], t.unstable[..idx + 1 - t.offset];
    forall x | 0 <= x < |left| ensures left[x] == right[x] {
      var i := t.offset + x;
      TailEntry(t, l, i);
      FlushedEntry(t.stored, flushed, f, i);
      assert Share(l, f, i);
    }
  }

  /** After a flush the store holds the simple log. */
  lemma FlushedHolds(s: Stack, f: Stack)
    requires s.Valid() && Takes(s, Flush) && f == Did(s, Flush) && f.Valid()
    ensures s.t.snapshot.None? && f.t.snapshot.None? && Tier(f.t.stored)
    ensures s.Log().base == f.t.stored[0].index && s.Log().ents == f.t.stored[1..]
  {
    FlushTiers(s.t);
  }

  lemma LatestDurable(s: Stack, f: Stack, ops: seq<TierOp>, s': Stack)
    requires s.Valid() && Takes(s, Flush) && f == Did(s, Flush) && f.Valid()
    requires Ran(f, ops, s') && AllInBetween(ops)
    requires s'.t.Valid() && LogsMatch(s'.Log(), s.Log())
    ensures s'.Valid() && s'.t.Durable(LastIndexOf(f.t.stored), f.t.stored[|f.t.stored| - 1].term)
  {
    FlushedHolds(s, f);
    StoreTrimmed(f, ops, s');
    EndDurable(s'.t, s'.Log(), f.t.stored, s.Log());
  }

  lemma DurableTaken(s: Stack, idx: nat, term: nat)
    requires s.Valid() && s.t.Durable(idx, term)
    ensures Takes(s, Ack(idx, term)) && Did(s, Ack(idx, term)).Valid() && Did(s, Ack(idx, term)).Log() == s.Log()
  {
    DidRefines(s, Ack(idx, term));
  }

  lemma FlushEnds(t: Tiers, stored: seq<Entry>)
    requires t.Valid() && t.snapshot.None? && stored != [] && stored[1..] == t.Ents()
    ensures t.unstable != [] ==> stored[|stored| - 1] == t.unstable[|t.unstable| - 1]
  {
    if t.unstable != [] {
      assert stored[|stored| - 1] == stored[1..][|stored| - 2] == t.Ents()[|t.Ents()| - 1];
    }
  }

  /** The acknowledgement of the latest flush is harmless: after the flush come any appends, merges,
      commits, compactions and durable acknowledgements, and then the end of what was flushed, its last
      unstable entry then, is acknowledged. If the log matches the one that was flushed, in the sense of
      Log Matching, nothing changes. */
  lemma LatestAckHarmless(s: Stack, f: Stack, ops: seq<TierOp>, s': Stack)
    requires s.Valid() && Takes(s, Flush) && f == Did(s, Flush) && f.Valid()
    requires Ran(f, ops, s') && AllInBetween(ops)
    requires s'.t.Valid() && LogsMatch(s'.Log(), s.Log())
    ensures s'.Valid()
    ensures var end := f.t.stored[|f.t.stored| - 1];
            && (s.t.unstable != [] ==> end == s.t.unstable[|s.t.unstable| - 1] && end.index == LastIndexOf(f.t.stored))
            && var ack := Ack(LastIndexOf(f.t.stored), end.term);
               Takes(s', ack) && Did(s', ack).Valid() && Did(s', ack).Log() == s'.Log()
  {
    LatestDurable(s, f, ops, s');
    FlushedHolds(s, f);
    FlushEnds(s.t, f.t.stored);
    DurableTaken(s', LastIndexOf(f.t.stored), f.t.stored[|f.t.stored| - 1].term);
  }

  // ---- the acknowledgement of a superseded flush ----

  const DUMMY := Entry(EntryNormal, 0, 0, [])
  const FIRST := Entry(EntryNormal, 1, 1, [])
  const SECOND := Entry(EntryNormal, 1, 2, [])
  const THIRD := Entry(EntryNormal, 1, 3, [])
  const LATER := Entry(EntryNormal, 2, 2, [])
  const TWO := [FIRST, SECOND]
  const THREE := [FIRST, SECOND, THIRD]

  /** Entries from index 1 on, in the store of a log that starts there. */
  function Stored(es: seq<Entry>): seq<Entry> { [DUMMY] + es }

  function Over(stored: seq<Entry>, unstable: seq<Entry>): Stack {
    Stack(Tiers(Stored(stored), None, unstable, 1), 0, 0)
  }

  ghost predicate Stackable(stored: seq<Entry>, unstable: seq<Entry>) {
    Contiguous(stored, 1) && unstable != [] && Contiguous(unstable, 1)
  }

  lemma OverValid(stored: seq<Entry>, unstable: seq<Entry>)
    requires Stackable(stored, unstable)
    ensures Over(stored, unstable).Valid() && Over(stored, unstable).Log().ents == unstable
  {
    assert Stored(stored)[1..1] + unstable == unstable;
  }

  lemma OverlayWhole(stored: seq<Entry>, unstable: seq<Entry>)
    requires unstable != [] && Contiguous(unstable, 1)
    ensures Overlay(Stored(stored), unstable) == Stored(unstable)
  {
    assert unstable[0..] == unstable && Stored(stored)[..1] == [DUMMY];
  }

  lemma OverFlushed(stored: seq<Entry>, unstable: seq<Entry>)
    requires Stackable(stored, unstable)
    ensures var s := Over(stored, unstable);
            s.Valid() && Takes(s, Flush) && Did(s, Flush) == Over(unstable, unstable)
  {
    OverValid(stored, unstable);
    OverlayWhole(stored, unstable);
  }

  lemma FlushThen(stored: seq<Entry>, unstable: seq<Entry>, ops: seq<TierOp>, s': Stack)
    requires Stackable(stored, unstable) && Over(unstable, unstable).Valid() && Ran(Over(unstable, unstable), ops, s')
    ensures Over(stored, unstable).Valid() && Ran(Over(stored, unstable), [Flush] + ops, s')
  {
    OverFlushed(stored, unstable);
    RanOne(Over(stored, unstable), Flush, ops, s');
  }

  lemma OverPut(stored: seq<Entry>, unstable: seq<Entry>, e: Entry, longer: seq<Entry>)
    requires Stackable(stored, unstable)
    requires 1 <= e.index <= |unstable| + 1 && longer == unstable[..e.index - 1] + [e]
    ensures var s := Over(stored, unstable);
            s.Valid() && Takes(s, Put([e])) && Did(s, Put([e])) == Over(stored, longer)
  {
    OverValid(stored, unstable);
    TailPut(Over(stored, unstable).t, e, longer);
  }

  lemma TailPut(t: Tiers, e: Entry, longer: seq<Entry>)
    requires t.offset <= e.index <= t.offset + |t.unstable|
    requires longer == t.unstable[..e.index - t.offset] + [e]
    ensures t.Appended([e]) == t.(unstable := longer)
  {
  }

  lemma PutThen(stored: seq<Entry>, unstable: seq<Entry>, e: Entry, longer: seq<Entry>, ops: seq<TierOp>, s': Stack)
    requires Stackable(stored, unstable)
    requires 1 <= e.index <= |unstable| + 1 && longer == unstable[..e.index - 1] + [e]
    requires Over(stored, longer).Valid() && Ran(Over(stored, longer), ops, s')
    ensures Over(stored, unstable).Valid() && Ran(Over(stored, unstable), [Put([e])] + ops, s')
  {
    OverPut(stored, unstable, e, longer);
    RanOne(Over(stored, unstable), Put([e]), ops, s');
  }

  /** Flush what is there, append the third entry and flush again, replace the second and third by the
      later one, and that by the second. */
  function Superseding(): seq<TierOp> {
    [Flush] + ([Put([THIRD])] + ([Flush] + ([Put([LATER])] + ([Put([SECOND])] + []))))
  }

  ghost predicate SecondAndThird(two: seq<Entry>, three: seq<Entry>) {
    && |two| == 2 && two[1] == SECOND && three == two + [THIRD]
    && Contiguous(two, 1) && Contiguous(three, 1)
  }

  lemma SupersededEnd(two: seq<Entry>, three: seq<Entry>)
    requires SecondAndThird(two, three)
    ensures Over(three, three).Valid()
    ensures Ran(Over(three, three), [Put([LATER])] + ([Put([SECOND])] + []), Over(three, two))
  {
    var s', later := Over(three, two), two[..1] + [LATER];
    OverValid(three, two);
    assert later[..1] + [SECOND] == two && three[..1] == two[..1];
    PutThen(three, later, SECOND, two, [], s');
    PutThen(three, three, LATER, later, [Put([SECOND])] + [], s');
  }

  lemma SupersededRun(two: seq<Entry>, three: seq<Entry>)
    requires SecondAndThird(two, three)
    ensures Over([], two).Valid() && Ran(Over([], two), Superseding(), Over(three, two))
  {
    SupersededEnd(two, three);
    SupersededStart(two, three, [Put([LATER])] + ([Put([SECOND])] + []), Over(three, two));
  }

  lemma SupersededStart(two: seq<Entry>, three: seq<Entry>, ops: seq<TierOp>, s': Stack)
    requires SecondAndThird(two, three) && Over(three, three).Valid() && Ran(Over(three, three), ops, s')
    ensures Over([], two).Valid() && Ran(Over([], two), [Flush] + ([Put([THIRD])] + ([Flush] + ops)), s')
  {
    FlushThen(two, three, ops, s');
    assert two[..2] == two;
    PutThen(two, two, THIRD, three, [Flush] + ops, s');
    FlushThen([], two, [Put([THIRD])] + ([Flush] + ops), s');
  }

  lemma SupersededAck()
    ensures var s' := Over(THREE, TWO);
            && s'.Valid() && s'.Log() == Log(0, 0, TWO, 0, 0)
            && s'.t.Acknowledges(2, 1) && !s'.t.Durable(2, 1)
            && s'.t.LastAnswer() == 2 && s'.t.Acknowledged(2, 1).LastAnswer() == 3
  {
    OverValid(THREE, TWO);
  }

  lemma SupersededMatches()
    ensures LogsMatch(Log(0, 0, TWO, 0, 0), Log(0, 0, THREE, 0, 0))
    ensures LogsMatch(Log(0, 0, TWO, 0, 0), Log(0, 0, TWO, 0, 0))
  {
  }

  /** The acknowledgement of a superseded flush can do harm, although the log matches everything that
      was ever flushed: two entries are flushed, a third is appended and flushed, one of a later term
      replaces the second and third, and the second comes back in its place. The old acknowledgement of
      the second now uncovers the stale third: the last index, 2 before, is answered as 3. */
  lemma SupersededAckUncovers()
    ensures var s, s' := Over([], TWO), Over(THREE, TWO);
            && s.Valid() && Ran(s, Superseding(), s')
            && s'.Valid() && s'.Log() == Log(0, 0, TWO, 0, 0)
            && LogsMatch(s'.Log(), Log(0, 0, THREE, 0, 0)) && LogsMatch(s'.Log(), Log(0, 0, TWO, 0, 0))
            && s'.t.Acknowledges(2, 1) && !s'.t.Durable(2, 1)
            && s'.t.LastAnswer() == 2 && s'.t.Acknowledged(2, 1).LastAnswer() == 3
  {
    SupersededRun(TWO, THREE);
    SupersededAck();
    SupersededMatches();
  }

  lemma RanOne(s: Stack, op: TierOp, ops: seq<TierOp>, s': Stack)
    requires s.Valid() && Takes(s, op) && Did(s, op).Valid() && Ran(Did(s, op), ops, s')
    ensures Ran(s, [op] + ops, s')
  {
    assert ([op] + ops)[1..] == ops;
  }
}
