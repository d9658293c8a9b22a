/** The one simple log that the two-tier `RaftLog` stands for: a base index with its term, the
    entries after it, and the commit and apply marks. */
module AbstractLog {
  import opened RaftTypes
  import opened SizeLimit

  /** What `maybe_append` ends in: a refused match, an accepted suffix, or a panic. */
  datatype AppendResult = Rejected | Accepted(log: Log, last: nat) | Panicked

  datatype Log = Log(base: nat, baseTerm: nat, ents: seq<Entry>, committed: nat, applied: nat) {

    ghost predicate WellFormed() {
      Contiguous(ents, base + 1) && committed <= LastIndex()
    }

    function FirstIndex(): nat { base + 1 }

    function LastIndex(): nat { base + |ents| }

    /** 0 outside the log, so that nothing but term 0 matches there. */
    function TermAt(idx: nat): nat {
      if idx < base || idx > LastIndex() then 0
      else if idx == base then baseTerm
      else ents[idx - base - 1].term
    }

    function LastTerm(): nat { TermAt(LastIndex()) }

    predicate MatchTerm(idx: nat, term: nat) { TermAt(idx) == term }

    function FindConflict(es: seq<Entry>): nat {
      if es == [] then 0
      else if !MatchTerm(es[0].index, es[0].term) then es[0].index
      else FindConflict(es[1..])
    }

    predicate CanOverwrite(es: seq<Entry>) {
      es == [] || (es[0].index >= 1 && committed <= es[0].index - 1 <= LastIndex() && base <= es[0].index - 1)
    }

    /** `append`: everything from the first new index on is replaced. */
    function Overwrite(es: seq<Entry>): Log
      requires CanOverwrite(es)
    {
      if es == [] then this else this.(ents := ents[..es[0].index - 1 - base] + es)
    }

    predicate CanCommit(idx: nat) { idx <= committed || idx <= LastIndex() }

    function CommitTo(idx: nat): Log { this.(committed := Max(committed, idx)) }

    /** The conflict, if any, lies among the new entries and above what is committed. */
    predicate ConflictFits(idx: nat, es: seq<Entry>) {
      var conflict := FindConflict(es);
      conflict == 0 || (committed < conflict && idx < conflict <= idx + |es|)
    }

    /** The new entries from the first conflict on. */
    function NewSuffix(idx: nat, es: seq<Entry>): seq<Entry>
      requires ConflictFits(idx, es)
    {
      var conflict := FindConflict(es);
      if conflict == 0 then [] else es[conflict - (idx + 1)..]
    }

    /** Nothing `maybe_append` insists on is violated, once the previous entry matched. */
    ghost predicate Merges(idx: nat, commit: nat, es: seq<Entry>) {
      && Contiguous(es, idx + 1) && ConflictFits(idx, es)
      && CanOverwrite(NewSuffix(idx, es))
      && Overwrite(NewSuffix(idx, es)).CanCommit(Min(commit, idx + |es|))
    }

    ghost function MaybeAppend(idx: nat, term: nat, commit: nat, es: seq<Entry>): AppendResult {
      if !MatchTerm(idx, term) then Rejected
      else if !Merges(idx, commit, es) then Panicked
      else Accepted(Overwrite(NewSuffix(idx, es)).CommitTo(Min(commit, idx + |es|)), idx + |es|)
    }

    predicate IsUpToDate(lastIndex: nat, term: nat) {
      term > LastTerm() || (term == LastTerm() && lastIndex >= LastIndex())
    }

    predicate CommitsAt(maxIndex: nat, term: nat) { maxIndex > committed && TermAt(maxIndex) == term }

    function MaybeCommit(maxIndex: nat, term: nat): Log {
      if CommitsAt(maxIndex, term) then CommitTo(maxIndex) else this
    }

    predicate CanApply(idx: nat) { idx == 0 || applied <= idx <= committed }

    function AppliedTo(idx: nat): Log { if idx == 0 then this else this.(applied := idx) }

    /** The entries with `low <= index < high`, without any limit. */
    function Range(low: nat, high: nat): seq<Entry>
      requires FirstIndex() <= low <= high <= LastIndex() + 1
    {
      ents[low - base - 1..high - base - 1]
    }

    function Slice(low: nat, high: nat, max: nat): Result<seq<Entry>>
      requires low <= high && (low >= FirstIndex() ==> high <= LastIndex() + 1)
    {
      if low < FirstIndex() then Err(Compacted) else Ok(LimitSize(Range(low, high), max))
    }

    function Entries(idx: nat, max: nat): Result<seq<Entry>> {
      if idx > LastIndex() then Ok([]) else Slice(idx, LastIndex() + 1, max)
    }

    /** Committed entries after `since`, in order. */
    function NextEntriesSince(since: nat): Option<seq<Entry>>
      requires committed <= LastIndex()
    {
      var low := Max(since + 1, FirstIndex());
      if committed + 1 > low then Some(Range(low, committed + 1)) else None
    }

    function Restore(s: Snapshot): Log {
      Log(s.index, s.term, [], s.index, applied)
    }

    /** The stored part below `idx` is dropped; `idx` becomes the base. */
    function CompactTo(idx: nat): Log
      requires base <= idx <= LastIndex()
    {
      this.(base := idx, baseTerm := TermAt(idx), ents := ents[idx - base..])
    }
  }

  /** The conflict is the first entry whose index and term the log does not hold; 0 means none. */
  lemma {:induction false} FindConflictIsFirst(l: Log, es: seq<Entry>, first: nat)
    requires first >= 1 && Contiguous(es, first)
    ensures var c := l.FindConflict(es);
            if c == 0 then forall k :: 0 <= k < |es| ==> l.MatchTerm(first + k, es[k].term)
            else first <= c < first + |es| && !l.MatchTerm(c, es[c - first].term) &&
                 forall k :: 0 <= k < c - first ==> l.MatchTerm(first + k, es[k].term)
    decreases |es|
  {
    if es != [] && l.MatchTerm(es[0].index, es[0].term) {
      var rest := es[1..];
      forall k | 0 <= k < |rest| ensures rest[k].index == first + 1 + k {
        assert rest[k] == es[k + 1];
      }
      FindConflictIsFirst(l, rest, first + 1);
      var c := l.FindConflict(rest);
      if c == 0 {
        forall k | 0 <= k < |es| ensures l.MatchTerm(first + k, es[k].term) {
          if k > 0 { assert es[k] == rest[k - 1]; assert l.MatchTerm(first + 1 + (k - 1), rest[k - 1].term); }
        }
      } else {
        assert rest[c - first - 1] == es[c - first];
        forall k | 0 <= k < c - first ensures l.MatchTerm(first + k, es[k].term) {
          if k > 0 { assert es[k] == rest[k - 1]; assert l.MatchTerm(first + 1 + (k - 1), rest[k - 1].term); }
        }
      }
    }
  }

  lemma SuffixContiguous(es: seq<Entry>, first: nat, k: nat)
    requires Contiguous(es, first) && k < |es|
    ensures Contiguous(es[k..], first + k) && es[k..][0].index == first + k
  {
    forall x | 0 <= x < |es[k..]| ensures es[k..][x].index == first + k + x { assert es[k..][x] == es[k + x]; }
  }

  lemma SuffixPut(l: Log, idx: nat, commit: nat, es: seq<Entry>)
    requires l.Merges(idx, commit, es)
    ensures var suffix := l.NewSuffix(idx, es); suffix != [] ==> Contiguous(suffix, suffix[0].index)
  {
    var c := l.FindConflict(es);
    if c != 0 { SuffixContiguous(es, idx + 1, c - (idx + 1)); }
  }

  /** An append whose new end lies in the merged log is accepted. */
  lemma AppendAccepted(l: Log, idx: nat, term: nat, commit: nat, es: seq<Entry>)
    requires l.MatchTerm(idx, term) && Contiguous(es, idx + 1) && l.ConflictFits(idx, es)
    requires l.CanOverwrite(l.NewSuffix(idx, es)) && idx + |es| <= l.Overwrite(l.NewSuffix(idx, es)).LastIndex()
    ensures l.MaybeAppend(idx, term, commit, es) ==
            Accepted(l.Overwrite(l.NewSuffix(idx, es)).CommitTo(Min(commit, idx + |es|)), idx + |es|)
  {
  }
}
