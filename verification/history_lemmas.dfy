/** What follows from the history alone: growth loses nothing, equal terms mean equal logs, and a
    chosen prefix is in the log of every later leader. */
module HistoryLemmas {
  import opened RaftTypes
  import opened Quorum
  import opened NodeSpec
  import opened History

  // ---- growth ----

  lemma GrowsTrans(a: Hist, b: Hist, c: Hist)
    requires Grows(a, b) && Grows(b, c)
    ensures Grows(a, c)
  {
    forall t | t in a.led ensures t in c.led && LedGrows(a.led[t], c.led[t], t) {
      assert LedGrows(a.led[t], b.led[t], t) && LedGrows(b.led[t], c.led[t], t);
    }
    forall j: nat, t: nat ensures Acked(a, j, t) <= Acked(c, j, t) {
      assert Acked(a, j, t) <= Acked(b, j, t) <= Acked(c, j, t);
    }
  }

  lemma OnlyAboutTrans(a: Hist, b: Hist, c: Hist, i: nat)
    requires Grows(a, b) && Grows(b, c)
    requires OnlyAbout(a, b, i) && OnlyAbout(b, c, i)
    ensures OnlyAbout(a, c, i)
  {
    forall t | t in a.led && t in c.led && t in a.wins && a.wins[t].leader != i ensures c.led[t] == a.led[t] {
      assert t in b.led && t in b.wins;
    }
    forall j: nat, t: nat | j != i ensures Acked(c, j, t) == Acked(a, j, t) {
      assert Acked(b, j, t) == Acked(a, j, t);
    }
  }

  lemma GoodLogGrows(g: Hist, g': Hist, es: seq<Entry>, bound: int, bound': int)
    requires Grows(g, g') && GoodLog(g, es, bound) && bound <= bound'
    ensures GoodLog(g', es, bound')
  {
    forall k | 0 <= k < |es| ensures GoodEntry(g', es, k, bound') {
      assert GoodEntry(g, es, k, bound);
      var t := es[k].term;
      assert LedGrows(g.led[t], g'.led[t], t);
    }
  }

  /** A log that departed stays departed: what a leader adds carries its own, later term. */
  lemma DepartsGrows(g: Hist, g': Hist, t: nat, k: nat, u: nat, bound: int, bound': int)
    requires Grows(g, g') && LedOk(g) && Departs(g, t, k, u, bound) && bound <= bound'
    requires k <= |g.led[t]|
    ensures Departs(g', t, k, u, bound')
  {
    var a, b := g.led[t], g.led[u];
    assert LedGrows(a, g'.led[t], t) && LedGrows(b, g'.led[u], u);
    if k <= |b| {
      var x :| 0 <= x < k && a[x] != b[x];
      assert g'.led[t][x] == a[x] && g'.led[u][x] == b[x];
    } else if k <= |g'.led[u]| {
      var x := |b|;
      assert GoodEntry(g, a, x, t);
      assert g'.led[t][x] == a[x] && g'.led[u][x].term == u;
    }
  }

  lemma KeptGrows(g: Hist, g': Hist, es: seq<Entry>, t: nat, k: nat, bound: int, bound': int)
    requires Grows(g, g') && LedOk(g) && Kept(g, es, t, k, bound) && bound <= bound'
    requires k <= |g.led[t]|
    ensures Kept(g', es, t, k, bound')
  {
    assert LedGrows(g.led[t], g'.led[t], t);
    if Same(g.led[t], es, k) {
      assert Same(g'.led[t], es, k);
    } else {
      var u :| Departs(g, t, k, u, bound);
      DepartsGrows(g, g', t, k, u, bound, bound');
    }
  }

  /** Growth that adds no acknowledgement of node `i` leaves its duties kept. */
  lemma KeepOkGrows(g: Hist, g': Hist, voters: set<nat>, i: nat, es: seq<Entry>, bound: int, bound': int)
    requires Grows(g, g') && LedOk(g) && AcksOk(g, voters) && KeepOk(g, i, es, bound) && bound <= bound'
    requires forall t: nat :: t <= bound ==> Acked(g', i, t) == Acked(g, i, t)
    requires forall t: nat :: bound < t <= bound' ==> Acked(g', i, t) == 0
    ensures KeepOk(g', i, es, bound')
  {
    forall t: nat, k: nat | t <= bound' && 0 < k <= Acked(g', i, t) ensures Kept(g', es, t, k, bound') {
      assert t <= bound;
      assert Kept(g, es, t, k, bound);
      KeptGrows(g, g', es, t, k, bound, bound');
    }
  }

  lemma ChosenGrows(g: Hist, g': Hist, voters: set<nat>, t: nat, k: nat)
    requires Grows(g, g') && Chosen(g, voters, t, k)
    ensures Chosen(g', voters, t, k)
    ensures Same(g.led[t], g'.led[t], k)
  {
    assert LedGrows(g.led[t], g'.led[t], t);
    SubsetSize(AckSet(g, voters, t, k), AckSet(g', voters, t, k));
  }

  lemma CommitOkGrows(g: Hist, g': Hist, voters: set<nat>, es: seq<Entry>, es': seq<Entry>, c: nat,
                      bound: int, bound': int)
    requires Grows(g, g') && CommitOk(g, voters, es, c, bound) && bound <= bound'
    requires c <= |es'| && (forall x :: 0 <= x < c ==> x < |es| && es'[x] == es[x])
    ensures CommitOk(g', voters, es', c, bound')
  {
    if c > 0 {
      var t: nat, k: nat :| CommittedBy(g, voters, es, c, t, k, bound);
      ChosenGrows(g, g', voters, t, k);
      assert CommittedBy(g', voters, es', c, t, k, bound');
    }
  }

  lemma CommitOkShrinks(g: Hist, voters: set<nat>, es: seq<Entry>, c: nat, c': nat, bound: int)
    requires CommitOk(g, voters, es, c, bound) && c' <= c
    ensures CommitOk(g, voters, es, c', bound)
  {
    if c' > 0 {
      var t: nat, k: nat :| CommittedBy(g, voters, es, c, t, k, bound);
      assert CommittedBy(g, voters, es, c', t, k, bound);
    }
  }

  lemma MsgOkGrows(g: Hist, g': Hist, voters: set<nat>, m: Message)
    requires Grows(g, g') && MsgOk(g, voters, m)
    ensures MsgOk(g', voters, m)
  {
    if m.mtype == MsgAppend {
      var l, l' := g.led[m.term], g'.led[m.term];
      assert LedGrows(l, l', m.term);
      CommitOkLength(g, voters, l, m.commit, m.term);
      CommitOkGrows(g, g', voters, l, l', m.commit, m.term, m.term);
    } else if m.mtype == MsgHeartbeat {
      var l, l' := g.led[m.term], g'.led[m.term];
      assert LedGrows(l, l', m.term);
      CommitOkLength(g, voters, l, m.commit, m.term);
      CommitOkGrows(g, g', voters, l, l', m.commit, m.term, m.term);
      assert Acked(g, m.to, m.term) <= Acked(g', m.to, m.term);
    } else if m.mtype == MsgAppendResponse {
      assert Acked(g, m.from, m.term) <= Acked(g', m.from, m.term);
    }
  }

  lemma CommitOkLength(g: Hist, voters: set<nat>, es: seq<Entry>, c: nat, bound: int)
    requires CommitOk(g, voters, es, c, bound)
    ensures c <= |es|
  {
  }

  lemma LeaderOkGrows(g: Hist, g': Hist, voters: set<nat>, i: nat, j: nat, n: Node)
    requires Grows(g, g') && OnlyAbout(g, g', i) && j != i && LeaderOk(g, j, n)
    ensures LeaderOk(g', j, n)
  {
    if n.role == Leader {
      forall q | q in n.prs ensures PeerOk(g', n, q) {
        assert PeerOk(g, n, q);
        assert Acked(g, q, n.term) <= Acked(g', q, n.term);
      }
    }
  }

  /** What node `i` adds to the history concerns no other node. */
  lemma NodeOkGrows(g: Hist, g': Hist, voters: set<nat>, i: nat, j: nat, n: Node)
    requires Grows(g, g') && OnlyAbout(g, g', i) && j != i
    requires LedOk(g) && AcksOk(g, voters) && NodeOk(g, voters, j, n)
    ensures NodeOk(g', voters, j, n)
  {
    GoodLogGrows(g, g', n.log.ents, n.term, n.term);
    LeaderOkGrows(g, g', voters, i, j, n);
    KeepOkGrows(g, g', voters, j, n.log.ents, n.term, n.term);
    CommitOkGrows(g, g', voters, n.log.ents, n.log.ents, n.log.committed, n.term, n.term);
    assert NotAhead(g', j, n.term) by {
      forall t: nat | Acked(g', j, t) > 0 ensures t <= n.term { assert Acked(g, j, t) > 0; }
    }
  }

  // ---- log matching ----

  /** Equal terms at one index mean equal logs up to it. */
  lemma LogsMatch(g: Hist, a: seq<Entry>, ba: int, b: seq<Entry>, bb: int, x: nat)
    requires GoodLog(g, a, ba) && GoodLog(g, b, bb)
    requires x < |a| && x < |b| && a[x].term == b[x].term
    ensures Same(a, b, x + 1)
  {
    assert GoodEntry(g, a, x, ba) && GoodEntry(g, b, x, bb);
    var l := g.led[a[x].term];
    forall y | 0 <= y < x + 1 ensures a[y] == b[y] { assert a[y] == l[y] && b[y] == l[y]; }
  }

  /** Terms never decrease along a log. */
  lemma TermsOrdered(g: Hist, es: seq<Entry>, bound: int, x: nat, y: nat)
    requires LedOk(g) && GoodLog(g, es, bound) && x <= y < |es|
    ensures es[x].term <= es[y].term
  {
    assert GoodEntry(g, es, y, bound);
    var l := g.led[es[y].term];
    assert es[x] == l[x];
    assert GoodEntry(g, l, x, es[y].term);
  }

  // ---- leader completeness ----

  /** A voter that acknowledged the chosen prefix voted while still holding it. */
  lemma VoterHeld(g: Hist, voters: set<nat>, t: nat, k: nat, t': nat, j: nat)
    requires HistOk(g, voters) && Chosen(g, voters, t, k) && t < t' && t' in g.wins
    requires j in g.wins[t'].quorum && Acked(g, j, t) >= k
    requires forall u: nat :: t < u < t' && u in g.led ==> Same(g.led[t], g.led[u], k)
    ensures (j, t') in g.voted && Same(g.led[t], g.voted[(j, t')].log, k)
  {
    assert WinOk(g, voters, t');
    var lg := g.voted[(j, t')].log;
    assert KeepOk(g, j, lg, t' - 1);
    assert Kept(g, lg, t, k, t' - 1);
  }

  /** A log at least as up to date as one that holds the chosen prefix holds it too. */
  lemma UpToDateHolds(g: Hist, voters: set<nat>, t: nat, k: nat, t': nat, es: seq<Entry>, lg: seq<Entry>)
    requires LedOk(g) && Chosen(g, voters, t, k)
    requires GoodLog(g, es, t' - 1) && GoodLog(g, lg, t') && UpToDate(es, lg) && Same(g.led[t], lg, k)
    requires forall u: nat :: t < u < t' && u in g.led ==> Same(g.led[t], g.led[u], k)
    ensures Same(g.led[t], es, k)
  {
    var last := |lg| - 1;
    TermsOrdered(g, lg, t', k - 1, last);
    assert lg[k - 1] == g.led[t][k - 1];
    assert LastTermOf(lg) >= t;
    var e := |es| - 1;
    assert es != [];
    assert GoodEntry(g, es, e, t' - 1);
    var u := es[e].term;
    if u == LastTermOf(lg) {
      assert GoodEntry(g, lg, last, t');
      forall x | 0 <= x < k ensures es[x] == g.led[t][x] {
        assert es[x] == g.led[u][x] && lg[x] == g.led[u][x] && lg[x] == g.led[t][x];
      }
    } else {
      assert t < u < t';
      assert Same(g.led[t], g.led[u], k);
      assert |es| >= k by {
        assert g.led[u][e] == es[e] && g.led[u][k - 1] == g.led[t][k - 1];
        if |es| < k { TermsOrdered(g, g.led[u], u, e, k - 1); }
      }
      forall x | 0 <= x < k ensures es[x] == g.led[t][x] {
        assert es[x] == g.led[u][x];
      }
    }
  }

  /** Leader Completeness: what was chosen in term `t` was already in the log with which the leader
      of any later term campaigned. */
  lemma {:induction false} ChosenStays(g: Hist, voters: set<nat>, t: nat, k: nat, t': nat)
    requires HistOk(g, voters) && Chosen(g, voters, t, k) && t < t' && t' in g.wins
    ensures (g.wins[t'].leader, t') in g.camp && Same(g.led[t], g.camp[(g.wins[t'].leader, t')], k)
    ensures t' in g.led && Same(g.led[t], g.led[t'], k)
    decreases t'
  {
    forall u: nat | t < u < t' && u in g.led ensures Same(g.led[t], g.led[u], k) {
      ChosenStays(g, voters, t, k, u);
    }
    var w := g.wins[t'];
    assert WinOk(g, voters, t');
    var j := QuorumsMeet(AckSet(g, voters, t, k), w.quorum, voters);
    VoterHeld(g, voters, t, k, t', j);
    assert VoteOk(g, voters, j, t');
    UpToDateHolds(g, voters, t, k, t', g.camp[(w.leader, t')], g.voted[(j, t')].log);
  }

  /** Two chosen prefixes never disagree. */
  lemma ChosenAgree(g: Hist, voters: set<nat>, t: nat, k: nat, t': nat, k': nat)
    requires HistOk(g, voters) && Chosen(g, voters, t, k) && Chosen(g, voters, t', k')
    ensures Same(g.led[t], g.led[t'], Min(k, k'))
  {
    if t < t' {
      ChosenStays(g, voters, t, k, t');
    } else if t' < t {
      ChosenStays(g, voters, t', k', t);
    }
  }

  lemma ChosenInLeader(g: Hist, voters: set<nat>, t: nat, k: nat, t': nat)
    requires HistOk(g, voters) && Chosen(g, voters, t, k) && t <= t' && t' in g.led
    ensures Same(g.led[t], g.led[t'], k)
  {
    if t < t' { ChosenStays(g, voters, t, k, t'); }
  }

  lemma SameThrough(g: Hist, voters: set<nat>, es: seq<Entry>, c: nat, t0: nat, k: nat, bound: int, t: nat)
    requires HistOk(g, voters) && CommittedBy(g, voters, es, c, t0, k, bound) && bound <= t && t in g.led
    ensures Same(es, g.led[t], c)
  {
    ChosenInLeader(g, voters, t0, k, t);
  }

  /** Whatever is committed is in the log of every leader at or above the committing bound. */
  lemma CommittedInLeader(g: Hist, voters: set<nat>, es: seq<Entry>, c: nat, bound: int, t: nat)
    requires HistOk(g, voters) && CommitOk(g, voters, es, c, bound) && bound <= t && t in g.led
    ensures c <= |es| && Same(es, g.led[t], c)
  {
    if c > 0 {
      var t0: nat, k: nat :| CommittedBy(g, voters, es, c, t0, k, bound);
      SameThrough(g, voters, es, c, t0, k, bound, t);
    }
  }
}
