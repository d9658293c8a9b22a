/** What the log operations guarantee together: appends cut from one leader log commute, and every
    committed entry is delivered once and in order. */
module LogProperties {
  import opened RaftTypes
  import opened AbstractLog

  // ---- appends cut from one leader log ----

  /** `leader` is a complete leader log: entry `k` has index `k + 1` and a real term. */
  ghost predicate LeaderLog(leader: seq<Entry>) {
    Contiguous(leader, 1) && forall k :: 0 <= k < |leader| ==> leader[k].term >= 1
  }

  function TermIn(leader: seq<Entry>, idx: nat): nat
    requires idx <= |leader|
  {
    if idx == 0 then 0 else leader[idx - 1].term
  }

  /** The log holds the leader's entries at every index up to `e` above its base. */
  ghost predicate Holds(l: Log, leader: seq<Entry>, e: nat) {
    && l.base <= e <= |leader| && e <= l.LastIndex()
    && l.baseTerm == TermIn(leader, l.base)
    && forall x :: 0 <= x < e - l.base ==> l.ents[x] == leader[l.base + x]
  }

  /** Log Matching between the two logs, agreement on what is committed, and real terms. */
  ghost predicate Follows(l: Log, leader: seq<Entry>) {
    && LeaderLog(leader) && l.WellFormed() && l.base <= l.committed && Holds(l, leader, l.committed)
    && (forall x :: 0 <= x < |l.ents| && l.base + x < |leader| && l.ents[x].term == leader[l.base + x].term ==>
          Holds(l, leader, l.base + x + 1))
    && forall x :: 0 <= x < |l.ents| ==> l.ents[x].term >= 1
  }

  /** A message cut from the leader log: the entries after `idx` up to and including `e`. */
  datatype Cut = Cut(idx: nat, e: nat, commit: nat) {
    ghost predicate From(l: Log, leader: seq<Entry>) { l.base <= idx <= e <= |leader| }

    ghost function Apply(l: Log, leader: seq<Entry>): AppendResult
      requires From(l, leader)
    {
      l.MaybeAppend(idx, TermIn(leader, idx), commit, leader[idx..e])
    }

    ghost predicate Accepts(l: Log, leader: seq<Entry>)
      requires From(l, leader)
    {
      l.MatchTerm(idx, TermIn(leader, idx))
    }
  }

  /** What an accepted cut leaves behind. */
  ghost function After(l: Log, leader: seq<Entry>, c: Cut): Log
    requires c.From(l, leader)
  {
    l.(ents := if Holds(l, leader, c.e) then l.ents else leader[l.base..c.e],
       committed := Max(l.committed, Min(c.commit, c.e)))
  }

  lemma AcceptedHolds(l: Log, leader: seq<Entry>, c: Cut)
    requires Follows(l, leader) && c.From(l, leader) && c.Accepts(l, leader)
    ensures Holds(l, leader, c.idx)
  {
    if c.idx > l.base {
      assert leader[c.idx - 1].term >= 1;
      assert l.ents[c.idx - 1 - l.base].term == leader[c.idx - 1].term;
    }
  }

  lemma HoldsMatches(l: Log, leader: seq<Entry>, e: nat, i: nat)
    requires LeaderLog(leader) && Holds(l, leader, e) && l.base < i <= e
    ensures l.MatchTerm(i, leader[i - 1].term)
  {
    assert l.ents[i - 1 - l.base] == leader[l.base + (i - 1 - l.base)];
  }

  /** What matches entry by entry is held. */
  lemma MatchedHolds(l: Log, leader: seq<Entry>, idx: nat, upTo: nat)
    requires Follows(l, leader) && Holds(l, leader, idx) && idx <= upTo <= |leader|
    requires upTo > idx ==> l.MatchTerm(upTo, leader[upTo - 1].term)
    ensures Holds(l, leader, upTo)
  {
    if upTo > idx {
      assert leader[upTo - 1].term >= 1;
      assert l.ents[upTo - 1 - l.base].term == leader[upTo - 1].term;
    }
  }

  lemma CutContiguous(leader: seq<Entry>, c: Cut)
    requires LeaderLog(leader) && c.idx <= c.e <= |leader|
    ensures Contiguous(leader[c.idx..c.e], c.idx + 1)
  {
  }

  /** `find_conflict` on a cut, in terms of the leader log. */
  lemma CutConflictNone(l: Log, leader: seq<Entry>, c: Cut)
    requires LeaderLog(leader) && c.idx < c.e <= |leader| && l.FindConflict(leader[c.idx..c.e]) == 0
    ensures l.MatchTerm(c.e, leader[c.e - 1].term)
  {
    var es := leader[c.idx..c.e];
    CutContiguous(leader, c);
    FindConflictIsFirst(l, es, c.idx + 1);
    var x := |es| - 1;
    assert l.MatchTerm(c.idx + 1 + x, es[x].term);
  }

  lemma CutConflictSome(l: Log, leader: seq<Entry>, c: Cut, k: nat)
    requires LeaderLog(leader) && c.idx <= c.e <= |leader| && k == l.FindConflict(leader[c.idx..c.e]) && k != 0
    ensures c.idx < k <= c.e && !l.MatchTerm(k, leader[k - 1].term)
    ensures k - 1 > c.idx ==> l.MatchTerm(k - 1, leader[k - 2].term)
  {
    var es := leader[c.idx..c.e];
    CutContiguous(leader, c);
    FindConflictIsFirst(l, es, c.idx + 1);
    assert es[k - (c.idx + 1)] == leader[k - 1];
    if k - 1 > c.idx {
      var x := k - 2 - c.idx;
      assert es[x] == leader[k - 2];
      assert l.MatchTerm(c.idx + 1 + x, es[x].term);
    }
  }

  lemma Mismatch(l: Log, leader: seq<Entry>, k: nat)
    requires LeaderLog(leader) && l.base < k <= |leader| && !l.MatchTerm(k, leader[k - 1].term)
    ensures forall e :: k <= e ==> !Holds(l, leader, e)
  {
    forall e | k <= e ensures !Holds(l, leader, e) {
      if Holds(l, leader, e) { HoldsMatches(l, leader, e, k); }
    }
  }

  /** Where the first conflict is: nowhere if everything is held, else right behind what is held. */
  lemma ConflictPlace(l: Log, leader: seq<Entry>, c: Cut)
    requires Follows(l, leader) && c.From(l, leader) && Holds(l, leader, c.idx)
    ensures var k := l.FindConflict(leader[c.idx..c.e]);
            if k == 0 then Holds(l, leader, c.e)
            else c.idx < k <= c.e && Holds(l, leader, k - 1) && !Holds(l, leader, c.e) && k > l.committed
  {
    var k := l.FindConflict(leader[c.idx..c.e]);
    if k == 0 {
      if c.idx < c.e { CutConflictNone(l, leader, c); }
      MatchedHolds(l, leader, c.idx, c.e);
    } else {
      CutConflictSome(l, leader, c, k);
      MatchedHolds(l, leader, c.idx, k - 1);
      Mismatch(l, leader, k);
    }
  }

  lemma HoldsBelow(l: Log, leader: seq<Entry>, e: nat, d: nat)
    requires Holds(l, leader, e) && l.base <= d <= e
    ensures Holds(l, leader, d)
  {
  }

  lemma MergedIsAfter(l: Log, leader: seq<Entry>, c: Cut)
    requires Follows(l, leader) && c.From(l, leader) && Holds(l, leader, c.idx)
    ensures var es := leader[c.idx..c.e];
            && l.ConflictFits(c.idx, es) && l.CanOverwrite(l.NewSuffix(c.idx, es))
            && l.Overwrite(l.NewSuffix(c.idx, es)) == l.(ents := After(l, leader, c).ents)
  {
    ConflictPlace(l, leader, c);
    var k := l.FindConflict(leader[c.idx..c.e]);
    if k != 0 { ReplaceTail(l, leader, c, k); }
  }

  lemma ReplaceTail(l: Log, leader: seq<Entry>, c: Cut, k: nat)
    requires LeaderLog(leader) && c.From(l, leader) && c.idx < k <= c.e && l.committed < k
    requires Holds(l, leader, k - 1)
    ensures var suffix := leader[c.idx..c.e][k - (c.idx + 1)..];
            l.CanOverwrite(suffix) && l.Overwrite(suffix).ents == leader[l.base..c.e]
  {
    var suffix := leader[c.idx..c.e][k - (c.idx + 1)..];
    assert suffix == leader[k - 1..c.e];
    OverwriteHeld(l, leader, k, c.e);
  }

  lemma OverwriteHeld(l: Log, leader: seq<Entry>, k: nat, e: nat)
    requires LeaderLog(leader) && l.base < k <= e <= |leader| && Holds(l, leader, k - 1) && l.committed < k
    ensures l.CanOverwrite(leader[k - 1..e]) && l.Overwrite(leader[k - 1..e]).ents == leader[l.base..e]
  {
    var r := l.ents[..k - 1 - l.base] + leader[k - 1..e];
    assert leader[k - 1..e][0] == leader[k - 1];
    forall x | 0 <= x < |r| ensures r[x] == leader[l.base + x] {
      if x < k - 1 - l.base { assert r[x] == l.ents[x]; }
    }
    assert r == leader[l.base..e];
  }

  lemma AfterHoldsCut(l: Log, leader: seq<Entry>, c: Cut)
    requires c.From(l, leader) && l.baseTerm == TermIn(leader, l.base)
    ensures Holds(After(l, leader, c), leader, c.e)
  {
  }

  /** An accepted cut never panics and leaves `After`: nothing is ever removed that the leader log
      holds, and the committed entries stay. */
  lemma CutOutcome(l: Log, leader: seq<Entry>, c: Cut)
    requires Follows(l, leader) && c.From(l, leader) && c.Accepts(l, leader)
    ensures c.Apply(l, leader) == Accepted(After(l, leader, c), c.e)
    ensures Holds(After(l, leader, c), leader, c.e)
  {
    AcceptedHolds(l, leader, c);
    CutContiguous(leader, c);
    MergedIsAfter(l, leader, c);
    AfterHoldsCut(l, leader, c);
    assert |leader[c.idx..c.e]| == c.e - c.idx;
  }

  lemma AfterKeepsCommitted(l: Log, leader: seq<Entry>, c: Cut)
    requires Follows(l, leader) && c.From(l, leader)
    ensures var n := After(l, leader, c);
            l.committed <= n.committed && |n.ents| >= l.committed - l.base &&
            n.ents[..l.committed - l.base] == l.ents[..l.committed - l.base]
  {
    if !Holds(l, leader, c.e) && c.e < l.committed { HoldsBelow(l, leader, l.committed, c.e); }
  }

  /** The committed entries survive every accepted cut. */
  lemma CutKeepsCommitted(l: Log, leader: seq<Entry>, c: Cut)
    requires Follows(l, leader) && c.From(l, leader) && c.Accepts(l, leader)
    ensures c.Apply(l, leader).Accepted?
    ensures var n := c.Apply(l, leader).log;
            l.committed <= n.committed && |n.ents| >= l.committed - l.base &&
            n.ents[..l.committed - l.base] == l.ents[..l.committed - l.base]
  {
    CutOutcome(l, leader, c);
    AfterKeepsCommitted(l, leader, c);
  }

  lemma AfterShape(l: Log, leader: seq<Entry>, c: Cut)
    requires Follows(l, leader) && c.From(l, leader)
    ensures var n := After(l, leader, c);
            n.WellFormed() && n.base <= n.committed && Holds(n, leader, n.committed) &&
            forall x :: 0 <= x < |n.ents| ==> n.ents[x].term >= 1
  {
    var n := After(l, leader, c);
    AfterHoldsCut(l, leader, c);
    if !Holds(l, leader, c.e) {
      assert l.committed <= c.e by { if c.e < l.committed { HoldsBelow(l, leader, l.committed, c.e); } }
      forall x | 0 <= x < |n.ents| ensures n.ents[x].index == n.base + 1 + x && n.ents[x].term >= 1 {
        assert n.ents[x] == leader[n.base + x];
      }
      HoldsBelow(n, leader, c.e, n.committed);
    }
  }

  lemma AfterFollows(l: Log, leader: seq<Entry>, c: Cut)
    requires Follows(l, leader) && c.From(l, leader)
    ensures Follows(After(l, leader, c), leader)
  {
    AfterShape(l, leader, c);
    AfterMatches(l, leader, c);
  }

  lemma AfterMatches(l: Log, leader: seq<Entry>, c: Cut)
    requires Follows(l, leader) && c.From(l, leader)
    ensures var n := After(l, leader, c);
            forall x :: 0 <= x < |n.ents| && n.base + x < |leader| && n.ents[x].term == leader[n.base + x].term ==>
              Holds(n, leader, n.base + x + 1)
  {
    AfterHoldsCut(l, leader, c);
    var n := After(l, leader, c);
    forall x | 0 <= x < |n.ents| && n.base + x < |leader| && n.ents[x].term == leader[n.base + x].term
      ensures Holds(n, leader, n.base + x + 1)
    {
      if Holds(l, leader, c.e) {
        assert Holds(l, leader, l.base + x + 1);
      } else {
        HoldsBelow(n, leader, c.e, n.base + x + 1);
      }
    }
  }

  lemma AfterHolds(l: Log, leader: seq<Entry>, c: Cut, e: nat)
    requires Follows(l, leader) && c.From(l, leader) && c.Accepts(l, leader) && l.base <= e <= |leader|
    ensures Holds(After(l, leader, c), leader, e) <==> Holds(l, leader, e) || e <= c.e
  {
    CutOutcome(l, leader, c);
    var n := After(l, leader, c);
    if e <= c.e { HoldsBelow(n, leader, c.e, e); }
    if Holds(l, leader, c.e) { assert n.ents == l.ents; }
    if !Holds(l, leader, c.e) && e > c.e {
      assert !Holds(l, leader, e) by { if Holds(l, leader, e) { HoldsBelow(l, leader, e, c.e); } }
    }
  }

  /** What was accepted stays acceptable. */
  lemma StillAccepts(l: Log, leader: seq<Entry>, c: Cut, d: Cut)
    requires Follows(l, leader) && c.From(l, leader) && d.From(l, leader)
    requires c.Accepts(l, leader) && d.Accepts(l, leader)
    ensures d.Accepts(After(l, leader, c), leader) && Holds(After(l, leader, c), leader, d.idx)
  {
    AcceptedHolds(l, leader, d);
    AfterHolds(l, leader, c, d.idx);
    if d.idx > l.base { HoldsMatches(After(l, leader, c), leader, d.idx, d.idx); }
  }

  /** Two messages cut from one leader log, both acceptable at first, leave the same log and the same
      commit mark in either order, and neither order panics. */
  lemma CutsCommute(l: Log, leader: seq<Entry>, c: Cut, d: Cut)
    requires Follows(l, leader) && c.From(l, leader) && d.From(l, leader)
    requires c.Accepts(l, leader) && d.Accepts(l, leader)
    ensures c.Apply(l, leader).Accepted? && d.Apply(l, leader).Accepted?
    ensures d.From(c.Apply(l, leader).log, leader) && c.From(d.Apply(l, leader).log, leader)
    ensures var cd := d.Apply(c.Apply(l, leader).log, leader);
            var dc := c.Apply(d.Apply(l, leader).log, leader);
            cd.Accepted? && dc.Accepted? && cd.log == dc.log
  {
    CutOutcome(l, leader, c);
    CutOutcome(l, leader, d);
    var n, m := After(l, leader, c), After(l, leader, d);
    AfterFollows(l, leader, c);
    AfterFollows(l, leader, d);
    StillAccepts(l, leader, c, d);
    StillAccepts(l, leader, d, c);
    CutOutcome(n, leader, d);
    CutOutcome(m, leader, c);
    AfterHolds(l, leader, c, d.e);
    AfterHolds(l, leader, d, c.e);
    AftersAgree(l, leader, c, d);
  }

  lemma AftersAgree(l: Log, leader: seq<Entry>, c: Cut, d: Cut)
    requires c.From(l, leader) && d.From(l, leader)
    requires Holds(After(l, leader, c), leader, d.e) <==> Holds(l, leader, d.e) || d.e <= c.e
    requires Holds(After(l, leader, d), leader, c.e) <==> Holds(l, leader, c.e) || c.e <= d.e
    ensures After(After(l, leader, c), leader, d) == After(After(l, leader, d), leader, c)
  {
    if c.e < d.e {
      if Holds(l, leader, d.e) { HoldsBelow(l, leader, d.e, c.e); }
    } else if d.e < c.e {
      if Holds(l, leader, c.e) { HoldsBelow(l, leader, c.e, d.e); }
    }
  }

  /** Receiving the same message again changes nothing. */
  lemma CutIdempotent(l: Log, leader: seq<Entry>, c: Cut)
    requires Follows(l, leader) && c.From(l, leader) && c.Accepts(l, leader)
    ensures c.Apply(l, leader).Accepted? && c.From(c.Apply(l, leader).log, leader)
    ensures c.Apply(c.Apply(l, leader).log, leader) == c.Apply(l, leader)
  {
    CutOutcome(l, leader, c);
    AfterFollows(l, leader, c);
    StillAccepts(l, leader, c, c);
    CutOutcome(After(l, leader, c), leader, c);
  }

  /** A stale, shorter message truncates nothing. */
  lemma StaleCutKeeps(l: Log, leader: seq<Entry>, c: Cut, d: Cut)
    requires Follows(l, leader) && c.From(l, leader) && d.From(l, leader) && d.e <= c.e
    requires c.Accepts(l, leader) && d.Accepts(l, leader)
    ensures c.Apply(l, leader).Accepted? && d.From(c.Apply(l, leader).log, leader)
    ensures var n := c.Apply(l, leader).log;
            d.Apply(n, leader).Accepted? && d.Apply(n, leader).log.ents == n.ents
  {
    CutOutcome(l, leader, c);
    AfterFollows(l, leader, c);
    StillAccepts(l, leader, c, d);
    CutOutcome(After(l, leader, c), leader, d);
    HoldsBelow(After(l, leader, c), leader, c.e, d.e);
  }

  // ---- exactly-once, in-order delivery ----

  datatype LogOp =
    | DoAppend(es: seq<Entry>)
    | DoMaybeAppend(idx: nat, term: nat, commit: nat, es: seq<Entry>)
    | DoCommit(idx: nat)
    | DoCompact(idx: nat)
    | DoDeliver

  /** A log together with everything handed to the state machine so far. */
  datatype Feed = Feed(log: Log, delivered: seq<Entry>)

  /** What the source insists on; compaction stays at or below what is applied. */
  ghost predicate Allowed(f: Feed, op: LogOp) {
    match op
    case DoAppend(es) =>
      f.log.CanOverwrite(es) && (es != [] ==> Contiguous(es, es[0].index))
    case DoMaybeAppend(idx, term, commit, es) => !f.log.MaybeAppend(idx, term, commit, es).Panicked?
    case DoCommit(idx) => f.log.CanCommit(idx)
    case DoCompact(idx) => f.log.base <= idx <= f.log.applied
    case DoDeliver => true
  }

  /** `next_entries` followed by `applied_to` of the last one. */
  ghost function Delivered(f: Feed): Feed
    requires f.log.committed <= f.log.LastIndex()
  {
    match f.log.NextEntriesSince(f.log.applied)
    case None => f
    case Some(es) =>
      if es == [] then f else Feed(f.log.AppliedTo(es[|es| - 1].index), f.delivered + es)
  }

  ghost function Do(f: Feed, op: LogOp): Feed
    requires f.log.committed <= f.log.LastIndex() && f.log.applied <= f.log.committed && Allowed(f, op)
  {
    match op
    case DoAppend(es) => f.(log := f.log.Overwrite(es))
    case DoMaybeAppend(idx, term, commit, es) =>
      (match f.log.MaybeAppend(idx, term, commit, es)
       case Accepted(log, _) => f.(log := log)
       case _ => f)
    case DoCommit(idx) => f.(log := f.log.CommitTo(idx))
    case DoCompact(idx) => f.(log := f.log.CompactTo(idx))
    case DoDeliver => Delivered(f)
  }

  /** Starting from index `start`, exactly the entries up to `applied` were delivered, one per index
      and in order, and whatever of them the log still has is the same. */
  ghost predicate InStep(f: Feed, start: nat) {
    && f.log.WellFormed() && start <= f.log.base <= f.log.applied <= f.log.committed
    && |f.delivered| == f.log.applied - start
    && Contiguous(f.delivered, start + 1)
    && forall k :: f.log.base - start <= k < |f.delivered| ==> f.delivered[k] == f.log.ents[k - (f.log.base - start)]
  }

  lemma NextRange(l: Log)
    requires l.WellFormed() && l.base <= l.applied <= l.committed
    ensures l.NextEntriesSince(l.applied) ==
            if l.committed == l.applied then None
            else Some(l.ents[l.applied - l.base..l.committed - l.base])
  {
  }

  lemma DeliverKeeps(f: Feed, start: nat)
    requires InStep(f, start)
    ensures InStep(Delivered(f), start) && Delivered(f).log.applied == f.log.committed
    ensures f.delivered <= Delivered(f).delivered
  {
    var l := f.log;
    NextRange(l);
    if l.committed > l.applied {
      var es := l.ents[l.applied - l.base..l.committed - l.base];
      assert es[|es| - 1].index == l.committed;
      assert Delivered(f) == Feed(l.AppliedTo(l.committed), f.delivered + es);
      DeliverMore(f, start, es);
    }
  }

  lemma DeliverMore(f: Feed, start: nat, es: seq<Entry>)
    requires InStep(f, start) && f.log.applied < f.log.committed
    requires es == f.log.ents[f.log.applied - f.log.base..f.log.committed - f.log.base]
    ensures InStep(Feed(f.log.(applied := f.log.committed), f.delivered + es), start)
  {
    var all := f.delivered + es;
    var gap := f.log.base - start;
    forall k | gap <= k < |all| ensures all[k] == f.log.ents[k - gap] {
      if k >= |f.delivered| { assert all[k] == es[k - |f.delivered|]; }
    }
    forall k | 0 <= k < |all| ensures all[k].index == start + 1 + k {
      if k >= |f.delivered| { assert all[k] == f.log.ents[k - gap]; }
    }
  }

  lemma OverwriteKeeps(f: Feed, start: nat, es: seq<Entry>)
    requires InStep(f, start) && f.log.CanOverwrite(es) && (es != [] ==> Contiguous(es, es[0].index))
    ensures InStep(f.(log := f.log.Overwrite(es)), start)
  {
  }

  lemma CommitKeeps(f: Feed, start: nat, mark: nat)
    requires InStep(f, start) && f.log.CanCommit(mark)
    ensures InStep(f.(log := f.log.CommitTo(mark)), start)
  {
  }

  lemma MaybeAppendKeeps(f: Feed, start: nat, idx: nat, term: nat, commit: nat, es: seq<Entry>)
    requires InStep(f, start) && f.log.MaybeAppend(idx, term, commit, es).Accepted?
    ensures InStep(f.(log := f.log.MaybeAppend(idx, term, commit, es).log), start)
  {
    var suffix, mark := f.log.NewSuffix(idx, es), Min(commit, idx + |es|);
    SuffixPut(f.log, idx, commit, es);
    OverwriteKeeps(f, start, suffix);
    CommitKeeps(f.(log := f.log.Overwrite(suffix)), start, mark);
  }

  lemma CompactKeeps(f: Feed, start: nat, idx: nat)
    requires InStep(f, start) && f.log.base <= idx <= f.log.applied
    ensures InStep(f.(log := f.log.CompactTo(idx)), start)
  {
    var n := f.log.CompactTo(idx);
    assert forall k :: 0 <= k < |n.ents| ==> n.ents[k] == f.log.ents[k + (idx - f.log.base)];
  }

  lemma DoKeeps(f: Feed, start: nat, op: LogOp)
    requires InStep(f, start) && Allowed(f, op)
    ensures InStep(Do(f, op), start) && f.delivered <= Do(f, op).delivered
  {
    match op {
      case DoAppend(es) => OverwriteKeeps(f, start, es);
      case DoMaybeAppend(idx, term, commit, es) =>
        if f.log.MaybeAppend(idx, term, commit, es).Accepted? { MaybeAppendKeeps(f, start, idx, term, commit, es); }
      case DoCommit(idx) =>
      case DoCompact(idx) => CompactKeeps(f, start, idx);
      case DoDeliver => DeliverKeeps(f, start);
    }
  }

  /** The run of a list of operations, each allowed when its turn comes. */
  ghost predicate Runs(f: Feed, ops: seq<LogOp>, f': Feed)
    decreases |ops|
  {
    if ops == [] then f' == f
    else
      && f.log.committed <= f.log.LastIndex() && f.log.applied <= f.log.committed
      && Allowed(f, ops[0]) && Runs(Do(f, ops[0]), ops[1..], f')
  }

  /** Exactly-once, in-order application over any run: what was delivered is one entry per index from
      the start up to `applied`, never retracted, and equal to what the log holds there. */
  lemma {:induction false} DeliveredExactlyOnce(f: Feed, ops: seq<LogOp>, f': Feed, start: nat)
    requires InStep(f, start) && Runs(f, ops, f')
    ensures InStep(f', start) && f.delivered <= f'.delivered
    decreases |ops|
  {
    if ops != [] {
      DoKeeps(f, start, ops[0]);
      DeliveredExactlyOnce(Do(f, ops[0]), ops[1..], f', start);
    }
  }
}
