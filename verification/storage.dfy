/** `MemStorageCore`: entries behind a dummy that carries the index and term of the last compacted
    entry. The lock around it is not modelled. */
module MemoryStorage {
  import opened RaftTypes
  import opened SizeLimit

  ghost predicate Tier(es: seq<Entry>) {
    es != [] && Contiguous(es, es[0].index)
  }

  function LastIndexOf(es: seq<Entry>): nat
    requires es != []
  {
    es[0].index + |es| - 1
  }

  /** `append`: a compacted prefix of the new entries is dropped, the rest replaces the tail. */
  function Overlay(stored: seq<Entry>, new': seq<Entry>): seq<Entry>
    requires stored != []
  {
    if new' == [] || new'[0].index + |new'| - 1 < stored[0].index + 1 then stored
    else
      var first := stored[0].index + 1;
      var skip := if first > new'[0].index then first - new'[0].index else 0;
      var at := Max(first, new'[0].index) - stored[0].index;
      if at <= |stored| then stored[..at] + new'[skip..] else stored
  }

  /** No gap between what is stored and what is appended. */
  predicate Adjoins(stored: seq<Entry>, new': seq<Entry>)
    requires stored != []
  {
    new' == [] || new'[0].index + |new'| - 1 < stored[0].index + 1 || new'[0].index <= LastIndexOf(stored) + 1
  }

  /** The overlaid log holds the new entry wherever there is one, the old one below them, and ends
      with the new entries. */
  lemma OverlayPointwise(stored: seq<Entry>, new': seq<Entry>)
    requires Tier(stored) && Adjoins(stored, new') && (new' != [] ==> Contiguous(new', new'[0].index))
    ensures var r := Overlay(stored, new');
            && Tier(r) && r[0] == stored[0]
            && (new' != [] && new'[0].index + |new'| - 1 > stored[0].index ==>
                  && LastIndexOf(r) == new'[0].index + |new'| - 1
                  && forall k :: 0 < k < |r| ==>
                       r[k] == (if r[0].index + k < new'[0].index then stored[k]
                                else new'[r[0].index + k - new'[0].index]))
  {
  }

  /** As written, the branch that overwrites builds the new vector and drops it. */
  function AppendAsWritten(stored: seq<Entry>, new': seq<Entry>): seq<Entry>
    requires stored != []
  {
    if new' != [] && Max(stored[0].index + 1, new'[0].index) == LastIndexOf(stored) + 1 then Overlay(stored, new')
    else stored
  }

  /** The new entries past the compacted prefix, and where they go. */
  function Incoming(stored: seq<Entry>, new': seq<Entry>): (int, seq<Entry>)
    requires stored != [] && new' != [] && new'[0].index + |new'| - 1 >= stored[0].index + 1
  {
    var first := stored[0].index + 1;
    (Max(first, new'[0].index) - stored[0].index,
     new'[if first > new'[0].index then first - new'[0].index else 0..])
  }

  /** As written, `append` stores what it is given exactly when there is nothing to store, or the
      entries go right behind the last stored one, or the stored tail already is those entries. */
  lemma AppendAsWrittenExact(stored: seq<Entry>, new': seq<Entry>)
    requires Tier(stored) && Adjoins(stored, new') && (new' != [] ==> Contiguous(new', new'[0].index))
    ensures AppendAsWritten(stored, new') == Overlay(stored, new') <==>
            || new' == [] || new'[0].index + |new'| - 1 < stored[0].index + 1
            || Incoming(stored, new').0 == |stored|
            || stored[Incoming(stored, new').0..] == Incoming(stored, new').1
  {
    if new' != [] && new'[0].index + |new'| - 1 >= stored[0].index + 1 && Incoming(stored, new').0 != |stored| {
      var (at, te) := Incoming(stored, new');
      assert Overlay(stored, new') == stored[..at] + te;
      assert stored == stored[..at] + stored[at..];
      if stored == stored[..at] + te { assert stored[at..] == te; }
    }
  }

  /** An overwriting append that is lost: the stored entry of term 1 survives the entry of term 2. */
  lemma AppendAsWrittenLoses()
    ensures var dummy := Entry(EntryNormal, 0, 0, []);
            var old', new' := Entry(EntryNormal, 1, 1, []), Entry(EntryNormal, 2, 1, []);
            AppendAsWritten([dummy, old'], [new']) == [dummy, old'] && Overlay([dummy, old'], [new']) == [dummy, new']
  {
    var dummy, old', new' := Entry(EntryNormal, 0, 0, []), Entry(EntryNormal, 1, 1, []), Entry(EntryNormal, 2, 1, []);
    assert [dummy, old'][..1] == [dummy] && [new'][0..] == [new'];
  }

  class MemStorage {
    var hardState: HardState
    var snapshot: Snapshot
    var entries: seq<Entry>

    ghost predicate Valid()
      reads this
    {
      Tier(entries)
    }

    constructor ()
      ensures Valid() && entries == [Entry(EntryNormal, 0, 0, [])] && snapshot == Snapshot(0, 0, [])
      ensures hardState == HardState(0, 0, 0)
    {
      hardState := HardState(0, 0, 0);
      snapshot := Snapshot(0, 0, []);
      entries := [Entry(EntryNormal, 0, 0, [])];
    }

    method SetHardState(hs: HardState)
      modifies this`hardState
      ensures hardState == hs
    {
      hardState := hs;
    }

    function InnerLastIndex(): (last: nat)
      requires Valid()
      reads this
      ensures last == entries[|entries| - 1].index
    {
      entries[0].index + |entries| - 1
    }

    method ApplySnapshot(s: Snapshot) returns (r: Result<()>)
      requires Valid()
      modifies this`entries, this`snapshot
      ensures Valid()
      ensures old(snapshot).index >= s.index ==>
                r == Err(SnapshotOutOfDate) && entries == old(entries) && snapshot == old(snapshot)
      ensures old(snapshot).index < s.index ==>
                r == Ok(()) && snapshot == s && entries == [Entry(EntryNormal, s.term, s.index, [])]
    {
      if snapshot.index >= s.index {
        return Err(SnapshotOutOfDate);
      }
      entries := [Entry(EntryNormal, s.term, s.index, [])];
      snapshot := s;
      r := Ok(());
    }

    /** The snapshot takes the term stored at its index; the entries stay. */
    method CreateSnapshot(idx: nat, data: Bytes) returns (r: Result<Snapshot>)
      requires Valid()
      requires idx > snapshot.index ==> entries[0].index <= idx <= InnerLastIndex()
      modifies this`snapshot
      ensures Valid() && entries == old(entries)
      ensures idx <= old(snapshot).index ==> r == Err(SnapshotOutOfDate) && snapshot == old(snapshot)
      ensures idx > old(snapshot).index ==>
                r == Ok(snapshot) && Ok(snapshot.term) == Term(idx) && snapshot.index == idx && snapshot.data == data
    {
      if idx <= snapshot.index {
        return Err(SnapshotOutOfDate);
      }
      var offset := entries[0].index;
      snapshot := Snapshot(idx, entries[idx - offset].term, data);
      r := Ok(snapshot);
    }

    /** Everything from the compaction point on answers as before; below it nothing answers. */
    method Compact(compactIdx: nat) returns (r: Result<()>)
      requires Valid()
      requires compactIdx <= InnerLastIndex()
      modifies this`entries
      ensures Valid()
      ensures compactIdx <= old(entries)[0].index ==> r == Err(Compacted) && entries == old(entries)
      ensures compactIdx > old(entries)[0].index ==>
                && r == Ok(()) && entries == old(entries)[compactIdx - old(entries)[0].index..]
                && (forall i: nat :: i >= compactIdx ==> Term(i) == old(Term(i)))
                && forall i: nat :: i < compactIdx ==> Term(i) == Err(StorageError.Compacted)
    {
      var offset := entries[0].index;
      if compactIdx <= offset {
        return Err(Compacted);
      }
      entries := entries[compactIdx - offset..];
      r := Ok(());
    }

    /** `append` with the overwritten vector assigned, as intended. */
    method Append(new': seq<Entry>)
      requires Valid() && Adjoins(entries, new') && (new' != [] ==> Contiguous(new', new'[0].index))
      modifies this`entries
      ensures Valid() && entries == Overlay(old(entries), new')
    {
      if |new'| == 0 {
        return;
      }
      var first := entries[0].index + 1;
      var last := new'[0].index + |new'| - 1;
      if last < first {
        return;
      }
      OverlayPointwise(entries, new');
      var te := if first > new'[0].index then new'[first - new'[0].index..] else new';
      assert new'[0..] == new';
      var offset := te[0].index - entries[0].index;
      if |entries| > offset {
        entries := entries[..offset] + te;
      } else {
        assert entries[..offset] == entries;
        entries := entries + te;
      }
    }

    // ---- the `Storage` reads ----

    function Entries(low: nat, high: nat, max: nat): Result<seq<Entry>>
      requires Valid() && low <= high && high <= InnerLastIndex() + 1
      reads this
    {
      if low <= entries[0].index then Err(StorageError.Compacted)
      else if |entries| == 1 then Err(Unavailable)
      else Ok(LimitSize(entries[low - entries[0].index..high - entries[0].index], max))
    }

    function Term(idx: nat): (r: Result<nat>)
      requires Valid()
      reads this
      ensures r.Ok? <==> entries[0].index <= idx <= InnerLastIndex()
    {
      if idx < entries[0].index then Err(StorageError.Compacted)
      else if idx - entries[0].index >= |entries| then Err(Unavailable)
      else Ok(entries[idx - entries[0].index].term)
    }

    function FirstIndex(): nat
      requires Valid()
      reads this
    {
      entries[0].index + 1
    }

    function LastIndex(): nat
      requires Valid()
      reads this
    {
      InnerLastIndex()
    }
  }
}
