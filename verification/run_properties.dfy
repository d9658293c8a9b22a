/** What runs guarantee beyond the five safety properties: the commit rule misses nothing, and from every
    reachable state the rounds of probing a peer whose term is not ahead converge. */
module RunProperties {
  import opened RaftTypes
  import opened AbstractLog
  import opened ProgressSpec
  import opened Quorum
  import opened NodeSpec
  import opened LogProperties
  import opened Replication
  import opened Cluster
  import opened History
  import opened HistoryLemmas
  import opened NodeSteps
  import opened StepSafety
  import opened ClusterSafety

  // ---- the commit rule ----

  ghost predicate TermsAscend(l: Log) {
    forall x, y :: l.base <= x <= y <= l.LastIndex() ==> l.TermAt(x) <= l.TermAt(y)
  }

  /** What the commit rule looks at: terms that never decrease or pass the node's own, and peers
      matched within the log. */
  ghost predicate Committable(n: Node) {
    && n.WellFormed() && n.term >= 1 && n.log.base <= n.log.committed
    && TermsAscend(n.log) && n.log.LastTerm() <= n.term
    && forall v :: v in n.voters ==> n.prs[v].matched <= n.log.LastIndex()
  }

  /** Some index a majority has reached, holding an entry of the node's own term. */
  ghost predicate MayCommit(n: Node, idx: nat) {
    QuorumReached(n.prs, n.voters, idx) && n.log.TermAt(idx) == n.term
  }

  lemma MaximalWithinLog(n: Node)
    requires Committable(n)
    ensures MaximalCommitted(n.prs, n.voters) <= n.log.LastIndex()
  {
    var reached := Reached(n.prs, n.voters, MaximalCommitted(n.prs, n.voters));
    assert |reached| >= 1;
    var v :| v in reached;
  }

  /** Looking at the maximal index only misses nothing: after `maybe_commit` every index that may be
      committed is, and the mark moved only to such an index. */
  lemma CommitRuleExact(n: Node)
    requires Committable(n)
    ensures var n' := MaybeCommit(n);
            && n' == n.(log := n.log.(committed := n'.log.committed))
            && (forall idx: nat :: MayCommit(n, idx) ==> idx <= n'.log.committed)
            && (n'.log.committed == n.log.committed ||
                (n'.log.committed > n.log.committed && MayCommit(n, n'.log.committed)))
  {
    var top := MaximalCommitted(n.prs, n.voters);
    MaximalWithinLog(n);
    forall idx: nat | MayCommit(n, idx) ensures idx <= MaybeCommit(n).log.committed {
      assert n.log.base <= idx <= top;
      assert n.log.TermAt(idx) <= n.log.TermAt(top) <= n.log.TermAt(n.log.LastIndex());
    }
  }

  lemma LogTermsAscend(g: Hist, l: Log, term: nat)
    requires LedOk(g) && GoodLog(g, l.ents, term) && l.base == 0 && l.baseTerm == 0
    ensures TermsAscend(l) && l.LastTerm() <= term
  {
    forall x, y | l.base <= x <= y <= l.LastIndex() ensures l.TermAt(x) <= l.TermAt(y) {
      if x > 0 { TermsOrdered(g, l.ents, term, x - 1, y - 1); }
    }
    if l.ents != [] { assert GoodEntry(g, l.ents, |l.ents| - 1, term); }
  }

  lemma MatchedWithinLog(g: Hist, voters: set<nat>, i: nat, n: Node, j: nat)
    requires AcksOk(g, voters) && LeaderOk(g, i, n) && n.role == Leader && j in n.prs
    ensures n.prs[j].matched <= |n.log.ents|
  {
    assert PeerOk(g, n, j);
    assert Acked(g, j, n.term) > 0 ==> Acked(g, j, n.term) <= |g.led[n.term]|;
  }

  lemma LeaderCommittable(g: Hist, voters: set<nat>, i: nat, n: Node)
    requires HistOk(g, voters) && NodeOk(g, voters, i, n) && n.role == Leader
    ensures Committable(n)
  {
    LocalShape(g, voters, i, n);
    LogTermsAscend(g, n.log, n.term);
    forall v | v in n.voters ensures n.prs[v].matched <= n.log.LastIndex() {
      MatchedWithinLog(g, voters, i, n, v);
    }
  }

  /** In every run every leader's commit rule is exact. */
  lemma CommitRuleInRuns(r: Run, voters: set<nat>, k: nat, i: nat)
    requires IsRun(r, voters) && k < |r| && i in r[k].nodes && r[k].nodes[i].role == Leader
    ensures Committable(r[k].nodes[i])
  {
    var g := StateExplained(r, voters, k);
    CommittableIn(g, voters, r[k], i);
  }

  lemma CommittableIn(g: Hist, voters: set<nat>, s: State, i: nat)
    requires InvFor(voters)(g, s) && i in s.nodes && s.nodes[i].role == Leader
    ensures Committable(s.nodes[i])
  {
    InvForIs(g, voters, s);
    LeaderCommittable(g, voters, i, s.nodes[i]);
  }

  /** No node of a run compacts its log. */
  lemma LogStartsAtOne(r: Run, voters: set<nat>, k: nat, i: nat)
    requires IsRun(r, voters) && k < |r| && i in r[k].nodes
    ensures r[k].nodes[i].log.base == 0 && r[k].nodes[i].log.baseTerm == 0 && r[k].nodes[i].WellFormed()
    ensures r[k].nodes[i].id == i && r[k].nodes[i].voters == voters
  {
    var g := StateExplained(r, voters, k);
    ShapeIn(g, voters, r[k], i);
  }

  lemma ShapeIn(g: Hist, voters: set<nat>, s: State, i: nat)
    requires InvFor(voters)(g, s) && i in s.nodes
    ensures s.nodes[i].log.base == 0 && s.nodes[i].log.baseTerm == 0 && s.nodes[i].WellFormed()
    ensures s.nodes[i].id == i && s.nodes[i].voters == voters
  {
    InvForIs(g, voters, s);
    LocalShape(g, voters, i, s.nodes[i]);
  }

  /** The local message is never sent, and what is sent has a term. */
  lemma NeverHup(r: Run, voters: set<nat>, k: nat, m: Message)
    requires IsRun(r, voters) && k < |r| && m in r[k].sent
    ensures m.mtype != MsgHup && m.term >= 1
  {
    var g := StateExplained(r, voters, k);
    MessageIn(g, voters, r[k], m);
  }

  lemma MessageIn(g: Hist, voters: set<nat>, s: State, m: Message)
    requires InvFor(voters)(g, s) && m in s.sent
    ensures MsgOk(g, voters, m)
  {
    InvForIs(g, voters, s);
  }

  // ---- replication from reachable states ----

  lemma LeaderLogSeen(g: Hist, voters: set<nat>, i: nat, n: Node)
    requires NodeOk(g, voters, i, n)
    ensures LeaderLog(n.log.ents)
  {
    forall x | 0 <= x < |n.log.ents| ensures n.log.ents[x].index == x + 1 && n.log.ents[x].term >= 1 {
      assert GoodEntry(g, n.log.ents, x, n.term);
    }
  }

  /** A log read from index 1 on holds what it shares with the leader's. */
  lemma SameHeld(f: Log, leader: seq<Entry>, c: nat)
    requires f.base == 0 && f.baseTerm == 0 && Same(f.ents, leader, c)
    ensures Holds(f, leader, c)
  {
  }

  lemma MatchingHeld(g: Hist, f: Log, bf: nat, leader: seq<Entry>, bl: nat, x: nat)
    requires GoodLog(g, f.ents, bf) && GoodLog(g, leader, bl) && f.base == 0 && f.baseTerm == 0
    requires x < |f.ents| && x < |leader| && f.ents[x].term == leader[x].term
    ensures Holds(f, leader, x + 1)
  {
    LogsMatch(g, f.ents, bf, leader, bl, x);
    SameHeld(f, leader, x + 1);
  }

  lemma ReachableFollows(g: Hist, voters: set<nat>, f: Log, bf: nat, leader: seq<Entry>, term: nat)
    requires HistOk(g, voters) && term in g.led && g.led[term] == leader && bf <= term
    requires f.WellFormed() && f.base == 0 && f.baseTerm == 0
    requires GoodLog(g, f.ents, bf) && LeaderLog(f.ents) && LeaderLog(leader)
    requires CommitOk(g, voters, f.ents, f.committed, bf)
    ensures Follows(f, leader)
  {
    CommittedInLeader(g, voters, f.ents, f.committed, bf, term);
    SameHeld(f, leader, f.committed);
    forall x | 0 <= x < |f.ents| && x < |leader| && f.ents[x].term == leader[x].term ensures Holds(f, leader, x + 1) {
      MatchingHeld(g, f, bf, leader, term, x);
    }
  }

  /** What a node acknowledged in the leader's term it still holds while it is in that term. */
  lemma AckedHeld(g: Hist, voters: set<nat>, j: nat, f: Node, term: nat, m: nat)
    requires Shape(voters, j, f) && NotAhead(g, j, f.term) && KeepOk(g, j, f.log.ents, f.term)
    requires LedOk(g) && f.term <= term && 0 < m <= Acked(g, j, term)
    ensures term in g.led && Same(g.led[term], f.log.ents, m)
  {
    assert f.term == term;
    assert Kept(g, f.log.ents, term, m, f.term);
  }

  lemma ReachableHonest(g: Hist, voters: set<nat>, j: nat, n: Node, f: Node)
    requires LedOk(g) && Shape(voters, j, f) && NotAhead(g, j, f.term) && KeepOk(g, j, f.log.ents, f.term)
    requires f.term <= n.term && j in n.prs && PeerOk(g, n, j)
    requires n.term in g.led && g.led[n.term] == n.log.ents
    requires n.prs[j].matched <= |n.log.ents|
    ensures Honest(n.prs[j], f.log, n.log.ents)
  {
    var m := n.prs[j].matched;
    if m > 0 {
      AckedHeld(g, voters, j, f, n.term, m);
      assert Holds(f.log, n.log.ents, m);
    }
  }

  /** A term has one winner, so a peer of the leader's term does not lead. */
  lemma ReachableHears(g: Hist, i: nat, n: Node, j: nat, f: Node)
    requires LeaderOk(g, i, n) && n.role == Leader && LeaderOk(g, j, f) && f.WellFormed()
    requires f.term <= n.term && i != j
    ensures Hears(f, n.term)
  {
  }

  lemma PairedIn(g: Hist, voters: set<nat>, s: State, i: nat, j: nat)
    requires InvFor(voters)(g, s) && i in s.nodes && j in s.nodes && i != j
    requires var n, f := s.nodes[i], s.nodes[j];
             n.role == Leader && f.term <= n.term && j in n.prs
    ensures Paired(Pair(s.nodes[i], s.nodes[j])) && s.nodes[j].id == j
  {
    InvForIs(g, voters, s);
    var n, f := s.nodes[i], s.nodes[j];
    LocalShape(g, voters, i, n);
    LeaderLogSeen(g, voters, i, n);
    LeaderLogSeen(g, voters, j, f);
    LocalShape(g, voters, j, f);
    ReachableFollows(g, voters, f.log, f.term, n.log.ents, n.term);
    assert PeerOk(g, n, j);
    MatchedWithinLog(g, voters, i, n, j);
    ReachableHonest(g, voters, j, n, f);
    ReachableHears(g, i, n, j, f);
    LeaderCommittable(g, voters, i, n);
  }

  /** From every reachable state: a leader and a peer whose term is not ahead are paired, whatever the state
      of the record. */
  lemma ReachablePaired(r: Run, voters: set<nat>, k: nat, i: nat, j: nat)
    requires IsRun(r, voters) && k < |r| && i in r[k].nodes && j in r[k].nodes && i != j
    requires var n, f := r[k].nodes[i], r[k].nodes[j]; n.role == Leader && f.term <= n.term && j in n.prs
    ensures Paired(Pair(r[k].nodes[i], r[k].nodes[j])) && r[k].nodes[j].id == j
  {
    var g := StateExplained(r, voters, k);
    PairedIn(g, voters, r[k], i, j);
  }

  /** In particular a leader that probes such a peer is linked to it, paused or not and wherever its next
      index stands, so the rounds between the two converge. */
  lemma ReachableLinked(r: Run, voters: set<nat>, k: nat, i: nat, j: nat)
    requires IsRun(r, voters) && k < |r| && i in r[k].nodes && j in r[k].nodes && i != j
    requires var n, f := r[k].nodes[i], r[k].nodes[j];
             n.role == Leader && f.term <= n.term && j in n.prs && n.prs[j].state == Probe
    ensures Linked(Pair(r[k].nodes[i], r[k].nodes[j]))
  {
    ReachablePaired(r, voters, k, i, j);
  }

  // ---- the append handler as written ----

  const AS_WRITTEN := Choice(false, false, true)

  /** An entry of the leader's own term is copied from that leader, with all before it. */
  lemma OwnTermEntry(g: Hist, voters: set<nat>, es: seq<Entry>, bound: nat, m: Message)
    requires GoodLog(g, es, bound) && AppendOk(g, voters, m)
    requires 1 <= m.index <= |es| && es[m.index - 1].term == m.term
    ensures m.logTerm == m.term
  {
    assert GoodEntry(g, es, m.index - 1, bound);
  }

  lemma MatchExact(g: Hist, voters: set<nat>, l: Log, bound: nat, m: Message)
    requires GoodLog(g, l.ents, bound) && AppendOk(g, voters, m) && m.term >= 1 && l.base == 0 && l.baseTerm == 0
    ensures l.MatchTerm(m.index, m.term) <==> m.logTerm == m.term && l.MatchTerm(m.index, m.logTerm)
  {
    if l.MatchTerm(m.index, m.term) { OwnTermEntry(g, voters, l.ents, bound, m); }
  }

  /** As written the handler compares the message's own term with the entry before the new ones. In
      every run that matches exactly when what is meant matches and the previous entry is of the
      leader's own term. */
  lemma MatchAsWrittenExact(r: Run, voters: set<nat>, k: nat, i: nat, m: Message)
    requires IsRun(r, voters) && k < |r| && i in r[k].nodes && m in r[k].sent && m.mtype == MsgAppend
    ensures var l := r[k].nodes[i].log;
            l.MatchTerm(m.index, m.term) <==> m.logTerm == m.term && l.MatchTerm(m.index, m.logTerm)
  {
    var g := StateExplained(r, voters, k);
    MatchIn(g, voters, r[k], i, m);
  }

  lemma MatchIn(g: Hist, voters: set<nat>, s: State, i: nat, m: Message)
    requires InvFor(voters)(g, s) && i in s.nodes && m in s.sent && m.mtype == MsgAppend
    ensures var l := s.nodes[i].log;
            l.MatchTerm(m.index, m.term) <==> m.logTerm == m.term && l.MatchTerm(m.index, m.logTerm)
  {
    InvForIs(g, voters, s);
    var n := s.nodes[i];
    assert NodeOk(g, voters, i, n) && MsgOk(g, voters, m);
    MatchExact(g, voters, n.log, n.term, m);
  }

  /** So a follower in the leader's term accepts an append as written exactly when it has committed past
      the previous index, or holds the leader's own-term entry there. */
  lemma AcceptAsWrittenExact(r: Run, voters: set<nat>, k: nat, i: nat, m: Message)
    requires IsRun(r, voters) && k < |r| && i in r[k].nodes && m in r[k].sent && m.mtype == MsgAppend
    requires m.to == i && r[k].nodes[i].term == m.term && r[k].nodes[i].role == Follower
    ensures var n := r[k].nodes[i];
            var o := HandleAppend(n, m, AS_WRITTEN);
            && o.Done?
            && ((forall resp :: resp in o.out ==> !resp.reject) <==>
                m.index < n.log.committed || (m.logTerm == m.term && n.log.MatchTerm(m.index, m.logTerm)))
  {
    var n := r[k].nodes[i];
    MatchAsWrittenExact(r, voters, k, i, m);
    HandleAppendDone(r, voters, k, i, m);
    AnswerAsWritten(n, m);
  }

  lemma HandleAppendDone(r: Run, voters: set<nat>, k: nat, i: nat, m: Message)
    requires IsRun(r, voters) && k < |r| && i in r[k].nodes && m in r[k].sent && m.mtype == MsgAppend
    requires m.to == i && r[k].nodes[i].term == m.term && r[k].nodes[i].role == Follower
    ensures HandleAppend(r[k].nodes[i], m, AS_WRITTEN).Done?
  {
    var g := StateExplained(r, voters, k);
    HandleAppendIn(g, voters, r[k], i, m);
  }

  lemma HandleAppendIn(g: Hist, voters: set<nat>, s: State, i: nat, m: Message)
    requires InvFor(voters)(g, s) && i in s.nodes && m in s.sent && m.mtype == MsgAppend
    requires m.to == i && s.nodes[i].term == m.term && s.nodes[i].role == Follower
    ensures HandleAppend(s.nodes[i], m, AS_WRITTEN).Done?
  {
    InvForIs(g, voters, s);
    var g' := HandleAppendSafe(g, voters, i, s.nodes[i], m, AS_WRITTEN);
  }

  /** One answer, a rejection exactly if the compared term does not match. */
  lemma AnswerAsWritten(n: Node, m: Message)
    requires HandleAppend(n, m, AS_WRITTEN).Done?
    ensures (forall resp :: resp in HandleAppend(n, m, AS_WRITTEN).out ==> !resp.reject) <==>
            m.index < n.log.committed || n.log.MatchTerm(m.index, m.term)
  {
    var o := HandleAppend(n, m, AS_WRITTEN);
    if m.index >= n.log.committed && !n.log.MatchTerm(m.index, m.term) {
      var resp := Message(MsgAppendResponse, m.from, n.id, n.term, index := m.index, reject := true,
                          rejectHint := n.log.LastIndex());
      assert resp in o.out;
    }
  }

  // ---- stopping and starting again ----

  /** Restarting from the node's own hard state gives back its term, vote, log and commit mark, as a
      follower that knows no leader. */
  lemma RestartRestores(n: Node, applied: nat)
    requires n.WellFormed() && n.log.base <= n.log.committed
    requires applied == 0 || n.log.base <= applied <= n.log.committed
    ensures var o := Restart(n, HardStateOf(n), applied);
            && o.Done? && o.out == {}
            && o.node.term == n.term && o.node.vote == n.vote
            && o.node.role == Follower && o.node.leaderId == INVALID_ID
            && o.node.log == n.log.(applied := if applied == 0 then n.log.base else applied)
  {
  }
}
