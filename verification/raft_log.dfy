/** `RaftLog`: a store and an unstable tail that together stand for one simple log. */
module TwoTierLog {
  import opened RaftTypes
  import opened SizeLimit
  import opened AbstractLog
  import opened MemoryStorage
  import opened UnstableTail
  import opened LogTiers

  class RaftLog {
    const store: MemStorage
    const unstable: Unstable
    var committed: nat
    var applied: nat

    ghost function Parts(): Tiers
      reads this, store, unstable
    {
      Tiers(store.entries, unstable.snapshot, unstable.entries, unstable.offset)
    }

    ghost predicate Valid()
      reads this, store, unstable
    {
      && store.Valid() && unstable.Valid() && Parts().Valid()
      && Parts().Base() <= committed <= LastOf(Parts())
    }

    static ghost function LastOf(t: Tiers): nat
      requires t.Valid()
    {
      t.Base() + |t.Ents()|
    }

    /** The simple log this one stands for. */
    ghost function Abs(): Log
      requires Valid()
      reads this, store, unstable
    {
      Log(Parts().Base(), Parts().BaseTerm(), Parts().Ents(), committed, applied)
    }

    /** The whole object as a value. */
    ghost function Now(): (s: Stack)
      requires Valid()
      reads this, store, unstable
      ensures s.Valid() && s.Log() == Abs()
    {
      Stack(Parts(), committed, applied)
    }

    lemma AbsWellFormed()
      requires Valid()
      ensures Abs().WellFormed()
    {
      EntsIndexed(Parts());
    }

    /** `RaftLog::new`: everything stored, nothing unstable, nothing committed beyond the base. */
    constructor (storage: MemStorage)
      requires storage.Valid()
      ensures Valid() && store == storage && fresh(unstable)
      ensures Abs() == Log(storage.entries[0].index, storage.entries[0].term, storage.entries[1..],
                           storage.entries[0].index, storage.entries[0].index)
    {
      var first := storage.FirstIndex();
      var last := storage.LastIndex();
      store := storage;
      committed := first - 1;
      applied := first - 1;
      unstable := new Unstable(last + 1);
    }

    // ---- queries ----

    function FirstIndex(): (r: nat)
      requires Valid()
      reads this, store, unstable
      ensures r == Abs().FirstIndex()
    {
      match unstable.MaybeFirstIndex()
      case Some(idx) => idx
      case None => store.FirstIndex()
    }

    function LastIndex(): (r: nat)
      requires Valid()
      reads this, store, unstable
      ensures r == Abs().LastIndex() == Parts().LastAnswer()
    {
      match unstable.MaybeLastIndex()
      case Some(idx) => idx
      case None => store.LastIndex()
    }

    function Term(idx: nat): (r: Result<nat>)
      requires Valid()
      reads this, store, unstable
      ensures r == Ok(Abs().TermAt(idx))
    {
      var dummy := FirstIndex() - 1;
      if idx < dummy || idx > LastIndex() then Ok(0)
      else
        match unstable.MaybeTerm(idx)
        case Some(t) => Ok(t)
        case None => store.Term(idx)
    }

    predicate MatchTerm(idx: nat, term: nat)
      requires Valid()
      reads this, store, unstable
      ensures MatchTerm(idx, term) == Abs().MatchTerm(idx, term)
    {
      Term(idx) == Ok(term)
    }

    function LastTerm(): (r: nat)
      requires Valid()
      reads this, store, unstable
      ensures r == Abs().LastTerm()
    {
      Term(LastIndex()).value
    }

    predicate IsUpToDate(lastIndex: nat, term: nat)
      requires Valid()
      reads this, store, unstable
      ensures IsUpToDate(lastIndex, term) == Abs().IsUpToDate(lastIndex, term)
    {
      term > LastTerm() || (term == LastTerm() && lastIndex >= LastIndex())
    }

    method FindConflict(entries: seq<Entry>) returns (conflict: nat)
      requires Valid()
      ensures conflict == Abs().FindConflict(entries)
    {
      var k := 0;
      assert entries[0..] == entries;
      while k < |entries|
        invariant 0 <= k <= |entries|
        invariant Abs().FindConflict(entries[k..]) == Abs().FindConflict(entries)
      {
        if !MatchTerm(entries[k].index, entries[k].term) {
          return entries[k].index;
        }
        assert entries[k..][1..] == entries[k + 1..];
        k := k + 1;
      }
      conflict := 0;
    }

    /** The limited read of the part below the offset; neither of the store's errors can occur. */
    method ReadStored(low: nat, high: nat, max: nat) returns (entries: seq<Entry>)
      requires Valid() && FirstIndex() <= low < high <= LastIndex() + 1 && low < unstable.offset
      requires Min(high, unstable.offset) - store.entries[0].index <= |store.entries|
      ensures entries == LimitSize(StoredRange(store.entries, store.entries[0].index, unstable.offset, low, high), max)
    {
      var stored := store.Entries(low, Min(high, unstable.offset), max);
      entries := stored.value;
    }

    method ReadTail(low: nat, high: nat) returns (entries: seq<Entry>)
      requires Valid() && low < high <= unstable.offset + |unstable.entries|
      ensures entries == TailRange(unstable.entries, unstable.offset, low, high)
    {
      entries := [];
      if high > unstable.offset {
        entries := unstable.Slice(Max(low, unstable.offset), high);
      }
    }

    /** The stored part limited, the tail behind it, the whole limited again: once is enough to say. */
    method ReadLimited(low: nat, high: nat, max: nat, ghost part: seq<Entry>, ghost rest: seq<Entry>)
      returns (entries: seq<Entry>)
      requires Valid() && FirstIndex() <= low < high <= LastIndex() + 1
      requires high <= unstable.offset + |unstable.entries|
      requires low < unstable.offset ==>
                 store.entries[0].index <= low && Min(high, unstable.offset) - store.entries[0].index <= |store.entries|
      requires part == StoredRange(store.entries, store.entries[0].index, unstable.offset, low, high)
      requires rest == TailRange(unstable.entries, unstable.offset, low, high)
      ensures entries == LimitSize(part + rest, max)
    {
      entries := [];
      if low < unstable.offset {
        entries := ReadStored(low, high, max);
        if |entries| < Min(high, unstable.offset) - low {
          LimitSizeOfLonger(part, rest, max);
          return;
        }
      }
      assert entries == part;
      var tail := ReadTail(low, high);
      entries := LimitSizeInPlace(entries + tail, max);
    }

    /** The limit is applied to the stored part and again to the whole: the result is the whole range
        limited once. */
    method Slice(low: nat, high: nat, max: nat) returns (r: Result<seq<Entry>>)
      requires Valid()
      requires low <= high && (low >= FirstIndex() ==> high <= LastIndex() + 1)
      ensures r == Abs().Slice(low, high, max)
    {
      if low < FirstIndex() {
        return Err(StorageError.Compacted);
      }
      if low >= high {
        return Ok([]);
      }
      ghost var part, rest := RangeParts(Parts(), low, high);
      var entries := ReadLimited(low, high, max, part, rest);
      r := Ok(entries);
    }

    method Entries(idx: nat, max: nat) returns (r: Result<seq<Entry>>)
      requires Valid()
      ensures r == Abs().Entries(idx, max)
    {
      var last := LastIndex();
      if idx > last {
        return Ok([]);
      }
      r := Slice(idx, last + 1, max);
    }

    method NextEntriesSince(since: nat) returns (r: Option<seq<Entry>>)
      requires Valid()
      ensures r == Abs().NextEntriesSince(since)
    {
      var low := Max(since + 1, FirstIndex());
      if committed + 1 > low {
        var s := Slice(low, committed + 1, NO_LIMIT);
        return Some(s.value);
      }
      r := None;
    }

    // ---- updates ----

    method Append(entries: seq<Entry>) returns (last: nat)
      requires Valid() && Abs().CanOverwrite(entries)
      requires entries != [] ==> Contiguous(entries, entries[0].index)
      modifies unstable
      ensures Valid() && Abs() == old(Abs()).Overwrite(entries) && last == Abs().LastIndex()
      ensures Takes(old(Now()), Put(entries)) && Now() == Did(old(Now()), Put(entries))
    {
      if |entries| == 0 {
        return LastIndex();
      }
      ghost var t := Parts();
      AppendTiers(t, entries);
      unstable.TruncateAndAppend(entries);
      assert Parts() == t.Appended(entries);
      last := LastIndex();
    }

    method CommitTo(toCommit: nat)
      requires Valid() && Abs().CanCommit(toCommit)
      modifies this`committed
      ensures Valid() && Abs() == old(Abs()).CommitTo(toCommit) && Parts() == old(Parts())
    {
      if committed >= toCommit {
        return;
      }
      committed := toCommit;
    }

    /** What `maybe_append` does once the previous entry matched. */
    method MergeEntries(idx: nat, term: nat, commit: nat, entries: seq<Entry>)
      requires Valid() && Abs().MatchTerm(idx, term) && Abs().Merges(idx, commit, entries)
      modifies this`committed, unstable
      ensures Valid() && Now() == Did(old(Now()), Merge(idx, term, commit, entries))
    {
      ghost var n := Now();
      ghost var suffix := n.Log().NewSuffix(idx, entries);
      SuffixPut(n.Log(), idx, commit, entries);
      MergeDid(n, idx, term, commit, entries);
      PutSuffix(idx, entries, suffix);
      PutRefines(n, suffix);
      CommitTo(Min(commit, idx + |entries|));
    }

    /** Appends from the first conflict on, if there is one. */
    method PutSuffix(idx: nat, entries: seq<Entry>, ghost suffix: seq<Entry>)
      requires Valid() && Abs().ConflictFits(idx, entries) && suffix == Abs().NewSuffix(idx, entries)
      requires Abs().CanOverwrite(suffix) && (suffix != [] ==> Contiguous(suffix, suffix[0].index))
      modifies unstable
      ensures Valid() && Takes(old(Now()), Put(suffix)) && Now() == Did(old(Now()), Put(suffix))
    {
      var conflict := FindConflict(entries);
      var new' := if conflict == 0 then [] else entries[conflict - (idx + 1)..];
      assert new' == suffix;
      var _ := Append(new');
    }

    method MaybeAppend(idx: nat, term: nat, commit: nat, entries: seq<Entry>) returns (r: Option<nat>)
      requires Valid() && !Abs().MaybeAppend(idx, term, commit, entries).Panicked?
      modifies this`committed, unstable
      ensures Valid()
      ensures old(Abs()).MaybeAppend(idx, term, commit, entries) ==
              if r.Some? then Accepted(Abs(), r.value) else Rejected
      ensures r.None? ==> Abs() == old(Abs())
      ensures Takes(old(Now()), Merge(idx, term, commit, entries))
      ensures Now() == Did(old(Now()), Merge(idx, term, commit, entries))
    {
      var lastNew := idx + |entries|;
      if MatchTerm(idx, term) {
        MergeRefines(Now(), idx, term, commit, entries);
        MergeEntries(idx, term, commit, entries);
        return Some(lastNew);
      }
      r := None;
    }

    method MaybeCommit(maxIndex: nat, term: nat) returns (advanced: bool)
      requires Valid() && (Abs().CommitsAt(maxIndex, term) ==> maxIndex <= Abs().LastIndex())
      modifies this`committed
      ensures Valid() && Abs() == old(Abs()).MaybeCommit(maxIndex, term)
      ensures advanced == old(Abs()).CommitsAt(maxIndex, term)
    {
      if maxIndex > committed && Term(maxIndex).value == term {
        CommitTo(maxIndex);
        advanced := true;
      } else {
        advanced := false;
      }
    }

    method AppliedTo(idx: nat)
      requires Valid() && Abs().CanApply(idx)
      modifies this`applied
      ensures Valid() && Abs() == old(Abs()).AppliedTo(idx) && Now() == Did(old(Now()), Apply(idx))
    {
      if idx == 0 {
        return;
      }
      applied := idx;
    }

    method Restore(s: Snapshot)
      requires Valid()
      modifies this, unstable
      ensures Valid() && Abs() == old(Abs()).Restore(s) && Now() == Did(old(Now()), LogTiers.Restore(s))
    {
      committed := s.index;
      unstable.Restore(s);
    }

    // ---- moving entries between the tiers: the simple log never changes ----

    /** Any acknowledgement is taken; a durable one changes nothing visible. */
    method StableTo(idx: nat, term: nat)
      requires Valid()
      modifies unstable
      ensures Parts() == old(Parts()).Acknowledged(idx, term)
      ensures old(Parts()).Durable(idx, term) ==>
                Valid() && Abs() == old(Abs()) && Now() == Did(old(Now()), Ack(idx, term))
    {
      ghost var t := Parts();
      if t.Durable(idx, term) { DurableKeeps(t, idx, term); }
      unstable.StableTo(idx, term);
      assert Parts() == t.Acknowledged(idx, term);
    }

    /** The store takes over the unstable entries (`store.append(unstable_entries)`). */
    method Flush()
      requires Valid() && unstable.snapshot.None?
      modifies store
      ensures Valid() && Abs() == old(Abs()) && Now() == Did(old(Now()), LogTiers.Flush)
      ensures store.entries[1..] == Abs().ents
    {
      ghost var t := Parts();
      FlushTiers(t);
      store.Append(unstable.entries);
      assert Parts() == t.Flushed();
    }

    /** The store takes over the pending snapshot (`store.apply_snapshot`, `stable_snapshot_to`). */
    method FlushSnapshot()
      requires Valid() && unstable.snapshot.Some? && store.snapshot.index < unstable.snapshot.value.index
      modifies store, unstable
      ensures Valid() && Abs() == old(Abs()) && Now() == Did(old(Now()), StoreSnapshot)
    {
      ghost var n := Now();
      SnapshotRefines(n, StoreSnapshot);
      var s := unstable.snapshot.value;
      var _ := store.ApplySnapshot(s);
      unstable.StableSnapshotTo(s.index);
      assert Parts() == Did(n, StoreSnapshot).t;
    }

    /** Compacting the store at any stored index. With a snapshot pending it is invisible; otherwise,
        below the tail and at or below what is committed, it only moves the base. */
    method CompactStore(idx: nat)
      requires Valid() && idx <= store.InnerLastIndex()
      modifies store
      ensures idx <= old(store.entries)[0].index ==> store.entries == old(store.entries)
      ensures idx > old(store.entries)[0].index ==>
                store.entries == old(store.entries)[idx - old(store.entries)[0].index..]
      ensures unstable.snapshot.Some? ==> Valid() && Abs() == old(Abs())
      ensures old(store.entries)[0].index <= idx && Takes(old(Now()), Compact(idx)) ==>
                Valid() && Abs() == old(Abs()).CompactTo(idx) && Now() == Did(old(Now()), Compact(idx))
    {
      ghost var n := Now();
      var _ := store.Compact(idx);
      CompactedStore(n, idx, store.entries);
      assert Parts() == n.t.(stored := store.entries);
    }
  }
}
