/** `Unstable`: the in-memory tail of the log with a moving offset, and a snapshot not yet stored. */
module UnstableTail {
  import opened RaftTypes

  class Unstable {
    var snapshot: Option<Snapshot>
    var entries: seq<Entry>
    var offset: nat

    /** A pending snapshot sits directly below the offset. */
    ghost predicate Valid()
      reads this
    {
      Contiguous(entries, offset) && offset >= 1 && (snapshot.Some? ==> offset == snapshot.value.index + 1)
    }

    constructor (offset: nat)
      requires offset >= 1
      ensures Valid() && snapshot == None && entries == [] && this.offset == offset
    {
      this.offset := offset;
      snapshot := None;
      entries := [];
    }

    function MaybeFirstIndex(): Option<nat>
      reads this
    {
      match snapshot
      case Some(s) => Some(s.index + 1)
      case None => None
    }

    function MaybeLastIndex(): Option<nat>
      requires |entries| > 0 ==> offset >= 1
      reads this
    {
      if |entries| == 0 then (match snapshot case Some(s) => Some(s.index) case None => None)
      else Some(offset + |entries| - 1)
    }

    /** The term of an index this tail knows: its entries and its snapshot, nothing else. */
    function MaybeTerm(idx: nat): (r: Option<nat>)
      requires Valid()
      reads this
      ensures r.Some? <==> offset <= idx < offset + |entries| || (snapshot.Some? && idx == snapshot.value.index)
    {
      if idx < offset then
        match snapshot
        case Some(s) => if idx == s.index then Some(s.term) else None
        case None => None
      else
        match MaybeLastIndex()
        case Some(last) => if idx > last then None else Some(entries[idx - offset].term)
        case None => None
    }

    /** The store reports that it holds everything up to `idx`. If entries are dropped while a snapshot
        is pending, the snapshot no longer sits directly below the offset. */
    method StableTo(idx: nat, term: nat)
      requires Valid()
      modifies this`entries, this`offset
      ensures idx >= old(offset) && old(MaybeTerm(idx)) == Some(term) ==>
                offset == idx + 1 && entries == old(entries)[idx + 1 - old(offset)..]
      ensures !(idx >= old(offset) && old(MaybeTerm(idx)) == Some(term)) ==>
                offset == old(offset) && entries == old(entries)
      ensures Contiguous(entries, offset) && (snapshot.None? || offset == old(offset) ==> Valid())
    {
      var t := MaybeTerm(idx);
      if t.None? {
        return;
      }
      if t.value == term && idx >= offset {
        var start := idx + 1 - offset;
        entries := entries[start..];
        offset := idx + 1;
      }
    }

    method StableSnapshotTo(idx: nat)
      requires Valid()
      modifies this`snapshot
      ensures Valid()
      ensures snapshot == if old(snapshot).Some? && old(snapshot).value.index == idx then None else old(snapshot)
    {
      if snapshot.None? {
        return;
      }
      if idx == snapshot.value.index {
        snapshot := None;
      }
    }

    /** `restore`, with the offset past the snapshot. */
    method Restore(s: Snapshot)
      modifies this
      ensures Valid() && snapshot == Some(s) && entries == [] && offset == s.index + 1
    {
      entries := [];
      offset := s.index + 1;
      snapshot := Some(s);
    }

    /** The new entries start inside the tail, right behind it, or below it; afterwards the tail ends
        with them. Below it, a pending snapshot no longer sits directly below the offset. */
    method TruncateAndAppend(es: seq<Entry>)
      requires Valid() && es != [] && Contiguous(es, es[0].index)
      requires 1 <= es[0].index <= offset + |entries|
      modifies this`entries, this`offset
      ensures Contiguous(entries, offset) && (snapshot.None? || es[0].index >= old(offset) ==> Valid())
      ensures offset == Min(old(offset), es[0].index)
      ensures entries == if es[0].index < old(offset) then es else old(entries)[..es[0].index - old(offset)] + es
    {
      var after := es[0].index;
      if after == offset + |entries| {
        assert entries[..after - offset] == entries;
        entries := entries + es;
      } else if after <= offset {
        assert after == offset ==> entries[..0] + es == es;
        offset := after;
        entries := [];
        entries := entries + es;
      } else {
        entries := entries[..after - offset];
        entries := entries + es;
      }
    }

    /** The entries with `low <= index < high`; the bounds are what the source insists on. */
    function Slice(low: nat, high: nat): (r: seq<Entry>)
      requires Valid() && offset <= low <= high <= offset + |entries|
      reads this
      ensures |r| == high - low && Contiguous(r, low)
    {
      entries[low - offset..high - offset]
    }
  }

  // ---- restoring as written ----

  /** Whether `maybe_term` reads past the end of the entries. */
  predicate TermOutOfBounds(snapshot: Option<Snapshot>, entries: seq<Entry>, offset: nat, idx: nat) {
    var last := if |entries| > 0 then Some(offset + |entries| - 1)
                else match snapshot case Some(s) => Some(s.index) case None => None;
    idx >= offset && last.Some? && idx <= last.value && idx - offset >= |entries|
  }

  /** As written, `restore` sets the offset to the snapshot's own index. Asking for the term at
      exactly that index then runs out of bounds; one further, as intended, no index does. */
  lemma RestoreAsWritten(s: Snapshot, idx: nat)
    ensures TermOutOfBounds(Some(s), [], s.index, idx) <==> idx == s.index
    ensures !TermOutOfBounds(Some(s), [], s.index + 1, idx)
  {
  }
}
