/** `util::limit_size` and the encoded size of an entry. */
module SizeLimit {
  import opened RaftTypes

  /** Number of bytes of a protobuf varint. */
  function VarintLen(n: nat): (len: nat)
    ensures len >= 1
  {
    if n < 128 then 1 else 1 + VarintLen(n / 128)
  }

  /** The size protobuf computes for an entry: default-valued fields cost nothing. */
  function EntrySize(e: Entry): nat {
    (if e.etype == EntryNormal then 0 else 2) +
    (if e.term == 0 then 0 else 1 + VarintLen(e.term)) +
    (if e.index == 0 then 0 else 1 + VarintLen(e.index)) +
    (if e.data == [] then 0 else 1 + VarintLen(|e.data|) + |e.data|)
  }

  function TotalSize(es: seq<Entry>): nat {
    if es == [] then 0 else TotalSize(es[..|es| - 1]) + EntrySize(es[|es| - 1])
  }

  /** `k` entries of `es` fit: one entry always does, more only within `max`. */
  ghost predicate Fits(es: seq<Entry>, k: nat, max: nat)
    requires k <= |es|
  {
    k <= 1 || TotalSize(es[..k]) <= max
  }

  /** How many leading entries survive: the longest run whose every prefix fits. */
  function KeepFrom(es: seq<Entry>, k: nat, max: nat): (r: nat)
    requires k <= |es|
    ensures k <= r <= |es|
    decreases |es| - k
  {
    if k < |es| && (TotalSize(es[..k]) == 0 || TotalSize(es[..k + 1]) <= max)
    then KeepFrom(es, k + 1, max)
    else k
  }

  function LimitSize(es: seq<Entry>, max: nat): (r: seq<Entry>)
    ensures r <= es
  {
    if max == NO_LIMIT || |es| <= 1 then es else es[..KeepFrom(es, 0, max)]
  }

  lemma TotalSizeGrows(es: seq<Entry>, a: nat, b: nat)
    requires a <= b <= |es|
    ensures TotalSize(es[..a]) <= TotalSize(es[..b])
    decreases b
  {
    if a < b {
      TotalSizeGrows(es, a, b - 1);
      assert es[..b][..b - 1] == es[..b - 1];
    }
  }

  lemma KeepFromStops(es: seq<Entry>, k: nat, max: nat)
    requires k <= |es|
    ensures var r := KeepFrom(es, k, max);
            (forall j :: k <= j < r ==> TotalSize(es[..j]) == 0 || TotalSize(es[..j + 1]) <= max) &&
            (r < |es| ==> TotalSize(es[..r]) > 0 && TotalSize(es[..r + 1]) > max)
    decreases |es| - k
  {
  }

  lemma FirstHasSize(es: seq<Entry>)
    requires es != [] && EntrySize(es[0]) > 0
    ensures TotalSize(es[..1]) > 0
  {
    assert es[..1][..0] == [];
  }

  /** Keeping entries one by one keeps the longest run that fits. */
  lemma KeptFits(es: seq<Entry>, max: nat)
    requires |es| > 1 && EntrySize(es[0]) > 0
    ensures var r := KeepFrom(es, 0, max);
            r >= 1 && Fits(es, r, max) && forall k :: r < k <= |es| ==> !Fits(es, k, max)
  {
    var r := KeepFrom(es, 0, max);
    KeepFromStops(es, 0, max);
    assert es[..0] == [];
    FirstHasSize(es);
    if r > 1 {
      TotalSizeGrows(es, 1, r - 1);
      assert TotalSize(es[..r - 1 + 1]) <= max;
    }
    forall k | r < k <= |es| ensures !Fits(es, k, max) { TotalSizeGrows(es, r + 1, k); }
  }

  /** On entries that occupy space, the kept prefix is the longest one that fits: every longer one
      is over the limit, and at least one entry is kept. */
  lemma LimitSizeIsLongestFit(es: seq<Entry>, max: nat)
    requires forall k :: 0 <= k < |es| ==> EntrySize(es[k]) > 0
    ensures var r := LimitSize(es, max);
            r == es[..|r|] &&
            (es != [] ==> |r| >= 1) &&
            (max != NO_LIMIT ==> Fits(es, |r|, max) && forall k :: |r| < k <= |es| ==> !Fits(es, k, max)) &&
            (max == NO_LIMIT ==> r == es)
  {
    if max != NO_LIMIT && |es| > 1 { KeptFits(es, max); }
  }

  /** What was cut only depends on the entries up to the cut. */
  lemma {:induction false} KeepFromExtends(es: seq<Entry>, more: seq<Entry>, k: nat, max: nat)
    requires k <= |es|
    ensures KeepFrom(es, k, max) < |es| ==> KeepFrom(es + more, k, max) == KeepFrom(es, k, max)
    ensures KeepFrom(es, k, max) == |es| ==> KeepFrom(es + more, k, max) >= |es|
    decreases |es| - k
  {
    if k < |es| {
      assert (es + more)[..k] == es[..k];
      assert (es + more)[..k + 1] == es[..k + 1];
      KeepFromExtends(es, more, k + 1, max);
    }
  }

  /** If limiting already cut something, adding entries behind does not change the outcome. */
  lemma LimitSizeOfLonger(es: seq<Entry>, more: seq<Entry>, max: nat)
    requires |LimitSize(es, max)| < |es|
    ensures LimitSize(es + more, max) == LimitSize(es, max)
  {
    KeepFromExtends(es, more, 0, max);
  }

  /** `limit_size`: one pass with a running size, then truncation. */
  method LimitSizeInPlace(entries: seq<Entry>, max: nat) returns (kept: seq<Entry>)
    ensures kept == LimitSize(entries, max)
  {
    if NO_LIMIT == max || |entries| <= 1 {
      return entries;
    }
    var size := 0;
    var limit := 0;
    assert entries[..0] == [];
    while limit < |entries|
      invariant 0 <= limit <= |entries|
      invariant size == TotalSize(entries[..limit])
      invariant KeepFrom(entries, limit, max) == KeepFrom(entries, 0, max)
    {
      var grown := size + EntrySize(entries[limit]);
      assert entries[..limit + 1][..limit] == entries[..limit];
      if size == 0 {
        size := grown;
      } else {
        size := grown;
        if size > max {
          break;
        }
      }
      limit := limit + 1;
    }
    kept := entries[..limit];
  }
}
