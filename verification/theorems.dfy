/** The five safety properties of Raft over whole runs, stated about the nodes alone. */
module Theorems {
  import opened RaftTypes
  import opened NodeSpec
  import opened Cluster
  import opened History
  import opened HistoryLemmas
  import opened ClusterSafety

  /** Everything known about one node of one state, seen from a later history. */
  ghost predicate Seen(g: Hist, g': Hist, voters: set<nat>, i: nat, n: Node) {
    Grows(g, g') && HistOk(g', voters) && WinsOk(g, voters) && NodeOk(g, voters, i, n)
  }

  /** Two moments of a run share one history that is at least as late as both. */
  lemma SeenTogether(r: Run, voters: set<nat>, p: nat, q: nat, i: nat, j: nat)
    returns (g: Hist, h: Hist, g': Hist)
    requires IsRun(r, voters) && p < |r| && q < |r| && i in r[p].nodes && j in r[q].nodes
    ensures Seen(g, g', voters, i, r[p].nodes[i]) && Seen(h, g', voters, j, r[q].nodes[j])
    ensures p <= q ==> g' == h
  {
    var gs := RunExplained(r, voters);
    var late := if p <= q then q else p;
    g, h, g' := gs[p], gs[q], gs[late];
    Grow(gs, p, late);
    Grow(gs, q, late);
    Pick(gs, r, voters, p, i);
    Pick(gs, r, voters, q, j);
    PickHist(gs, r, voters, late);
    PickHist(gs, r, voters, p);
    PickHist(gs, r, voters, q);
  }

  lemma Grow(gs: seq<Hist>, p: nat, q: nat)
    requires AllGrow(gs) && p <= q < |gs|
    ensures Grows(gs[p], gs[q])
  {
    assert GrowsAt(gs, p, q);
  }

  lemma Pick(gs: seq<Hist>, r: Run, voters: set<nat>, p: nat, i: nat)
    requires p < |gs| <= |r| && AllHold(gs, r, InvFor(voters)) && i in r[p].nodes
    ensures NodeOk(gs[p], voters, i, r[p].nodes[i])
  {
    InvForIs(gs[p], voters, r[p]);
  }

  lemma PickHist(gs: seq<Hist>, r: Run, voters: set<nat>, p: nat)
    requires p < |gs| <= |r| && AllHold(gs, r, InvFor(voters))
    ensures HistOk(gs[p], voters)
  {
    InvForIs(gs[p], voters, r[p]);
  }

  /** What a leader's log is to the history, now and later. */
  lemma LeaderSeen(g: Hist, g': Hist, voters: set<nat>, i: nat, n: Node)
    requires Grows(g, g') && WinsOk(g, voters) && LeaderOk(g, i, n) && n.role == Leader
    ensures n.term in g'.wins && g'.wins[n.term].leader == i
    ensures n.term in g'.led && LedGrows(n.log.ents, g'.led[n.term], n.term)
    ensures (i, n.term) in g'.camp && Same(g'.camp[(i, n.term)], n.log.ents, |g'.camp[(i, n.term)]|)
  {
    assert WinOk(g, voters, n.term);
    assert LedGrows(g.led[n.term], g'.led[n.term], n.term);
  }

  /** Election Safety: a term has at most one leader over the whole run. */
  lemma ElectionSafety(r: Run, voters: set<nat>, p: nat, q: nat, i: nat, j: nat)
    requires IsRun(r, voters) && p < |r| && q < |r| && i in r[p].nodes && j in r[q].nodes
    requires r[p].nodes[i].role == Leader && r[q].nodes[j].role == Leader
    requires r[p].nodes[i].term == r[q].nodes[j].term
    ensures i == j
  {
    var g, h, g' := SeenTogether(r, voters, p, q, i, j);
    LeaderSeen(g, g', voters, i, r[p].nodes[i]);
    LeaderSeen(h, g', voters, j, r[q].nodes[j]);
  }

  /** Leader Append-Only: between two moments at which a node leads the same term, its log only grew,
      whatever happened in between. */
  lemma LeaderAppendOnly(r: Run, voters: set<nat>, p: nat, q: nat, i: nat)
    requires IsRun(r, voters) && p <= q < |r| && i in r[p].nodes && i in r[q].nodes
    requires r[p].nodes[i].role == Leader && r[q].nodes[i].role == Leader
    requires r[p].nodes[i].term == r[q].nodes[i].term
    ensures r[p].nodes[i].log.ents <= r[q].nodes[i].log.ents
  {
    var g, h, g' := SeenTogether(r, voters, p, q, i, i);
    LedLonger(g, g', i, r[p].nodes[i], r[q].nodes[i]);
  }

  lemma LedLonger(g: Hist, g': Hist, i: nat, a: Node, b: Node)
    requires Grows(g, g') && LeaderOk(g, i, a) && LeaderOk(g', i, b)
    requires a.role == Leader && b.role == Leader && a.term == b.term
    ensures a.log.ents <= b.log.ents
  {
    assert LedGrows(g.led[a.term], g'.led[a.term], a.term);
  }

  lemma LogSeen(g: Hist, g': Hist, voters: set<nat>, i: nat, n: Node)
    requires Seen(g, g', voters, i, n)
    ensures GoodLog(g', n.log.ents, n.term)
  {
    GoodLogGrows(g, g', n.log.ents, n.term, n.term);
  }

  /** Log Matching: two logs, of whatever nodes at whatever moments, that hold an entry of the same
      term at one index are the same up to it. */
  lemma LogMatching(r: Run, voters: set<nat>, p: nat, q: nat, i: nat, j: nat, x: nat)
    requires IsRun(r, voters) && p < |r| && q < |r| && i in r[p].nodes && j in r[q].nodes
    requires x < |r[p].nodes[i].log.ents| && x < |r[q].nodes[j].log.ents|
    requires r[p].nodes[i].log.ents[x].term == r[q].nodes[j].log.ents[x].term
    ensures Same(r[p].nodes[i].log.ents, r[q].nodes[j].log.ents, x + 1)
    ensures r[p].nodes[i].log.ents[x].index == x + 1
  {
    var g, h, g' := SeenTogether(r, voters, p, q, i, j);
    var a, b := r[p].nodes[i], r[q].nodes[j];
    LogSeen(g, g', voters, i, a);
    LogSeen(h, g', voters, j, b);
    LogsMatch(g', a.log.ents, a.term, b.log.ents, b.term, x);
    assert GoodEntry(g', a.log.ents, x, a.term);
  }

  lemma CommitSeen(g: Hist, g': Hist, voters: set<nat>, i: nat, n: Node)
    requires Seen(g, g', voters, i, n)
    ensures CommitOk(g', voters, n.log.ents, n.log.committed, n.term) && n.log.committed <= |n.log.ents|
  {
    CommitOkGrows(g, g', voters, n.log.ents, n.log.ents, n.log.committed, n.term, n.term);
  }

  /** A committed prefix was in the log with which any later term's leader campaigned. */
  lemma CommittedInCampaign(g: Hist, voters: set<nat>, es: seq<Entry>, c: nat, bound: nat, t: nat)
    requires HistOk(g, voters) && CommitOk(g, voters, es, c, bound) && bound < t && t in g.wins
    ensures (g.wins[t].leader, t) in g.camp && Same(es, g.camp[(g.wins[t].leader, t)], c)
  {
    assert WinOk(g, voters, t);
    if c > 0 {
      var t0: nat, k: nat :| CommittedBy(g, voters, es, c, t0, k, bound);
      ChosenStays(g, voters, t0, k, t);
    }
  }

  /** Leader Completeness: whatever any node commits while in one term is in the log of every leader
      of every later term, at every moment of its leadership. */
  lemma LeaderCompleteness(r: Run, voters: set<nat>, p: nat, q: nat, i: nat, j: nat)
    requires IsRun(r, voters) && p < |r| && q < |r| && i in r[p].nodes && j in r[q].nodes
    requires r[q].nodes[j].role == Leader && r[p].nodes[i].term < r[q].nodes[j].term
    ensures Same(r[p].nodes[i].log.ents, r[q].nodes[j].log.ents, r[p].nodes[i].log.committed)
  {
    var g, h, g' := SeenTogether(r, voters, p, q, i, j);
    var a, b := r[p].nodes[i], r[q].nodes[j];
    CommitSeen(g, g', voters, i, a);
    LeaderSeen(h, g', voters, j, b);
    CommittedInCampaign(g', voters, a.log.ents, a.log.committed, a.term, b.term);
  }

  lemma CommitsAgree(g: Hist, voters: set<nat>, a: seq<Entry>, c: nat, ba: int, b: seq<Entry>, d: nat, bb: int)
    requires HistOk(g, voters) && CommitOk(g, voters, a, c, ba) && CommitOk(g, voters, b, d, bb)
    ensures Same(a, b, Min(c, d))
  {
    if c > 0 && d > 0 {
      var t: nat, k: nat :| CommittedBy(g, voters, a, c, t, k, ba);
      var t': nat, k': nat :| CommittedBy(g, voters, b, d, t', k', bb);
      ChosenAgree(g, voters, t, k, t', k');
    }
  }

  /** State Machine Safety: no two nodes, at any two moments of a run, have different entries at an
      index both have committed; so neither ever applies what contradicts the other. */
  lemma StateMachineSafety(r: Run, voters: set<nat>, p: nat, q: nat, i: nat, j: nat)
    requires IsRun(r, voters) && p < |r| && q < |r| && i in r[p].nodes && j in r[q].nodes
    ensures Same(r[p].nodes[i].log.ents, r[q].nodes[j].log.ents,
                 Min(r[p].nodes[i].log.committed, r[q].nodes[j].log.committed))
    ensures r[p].nodes[i].log.applied <= r[p].nodes[i].log.committed
  {
    var g, h, g' := SeenTogether(r, voters, p, q, i, j);
    var a, b := r[p].nodes[i], r[q].nodes[j];
    CommitSeen(g, g', voters, i, a);
    CommitSeen(h, g', voters, j, b);
    CommitsAgree(g', voters, a.log.ents, a.log.committed, a.term, b.log.ents, b.log.committed, b.term);
  }

  /** No panic of the source is reachable: whatever is enabled in a state of a run finishes. */
  lemma NoPanic(r: Run, voters: set<nat>, k: nat, i: nat, a: Action)
    requires IsRun(r, voters) && k < |r| && i in r[k].nodes && Enabled(r[k], r[k].nodes[i], a)
    ensures r[k].nodes[i].WellFormed() && Perform(r[k].nodes[i], a).Done?
  {
    var g := StateExplained(r, voters, k);
    InvForIs(g, voters, r[k]);
    ActionDoesNotPanic(g, voters, r[k], i, a);
  }

  lemma GrantsAgree(g: Hist, voters: set<nat>, s: State, a: Message, b: Message)
    requires AllMessagesOk(g, voters, s.sent) && a in s.sent && b in s.sent
    requires a.mtype == MsgRequestVoteResponse && b.mtype == MsgRequestVoteResponse
    requires !a.reject && !b.reject && a.from == b.from && a.term == b.term
    ensures a.to == b.to
  {
    assert MsgOk(g, voters, a) && MsgOk(g, voters, b);
  }

  /** A node grants its vote of a term to one candidate only, crashes included: any two grants it ever
      sent for the term name the same candidate. */
  lemma VoteOnce(r: Run, voters: set<nat>, k: nat, a: Message, b: Message)
    requires IsRun(r, voters) && k < |r| && a in r[k].sent && b in r[k].sent
    requires a.mtype == MsgRequestVoteResponse && b.mtype == MsgRequestVoteResponse
    requires !a.reject && !b.reject && a.from == b.from && a.term == b.term
    ensures a.to == b.to
  {
    var g := StateExplained(r, voters, k);
    InvForIs(g, voters, r[k]);
    GrantsAgree(g, voters, r[k], a, b);
  }
}
