/** What holds of a leader at every moment: it knows itself, its log ends in its own term, and it has
    committed all it may. */
module Leading {
  import opened RaftTypes
  import opened AbstractLog
  import opened ProgressSpec
  import opened Quorum
  import opened NodeSpec
  import opened Cluster
  import opened Traces
  import opened History
  import opened StepSafety
  import opened ClusterSafety
  import opened RunProperties
  import opened Proposals
  import opened SentMessages

  /** The leader's own marks: it voted for itself and follows itself, counts its whole log as matched, and
      its last entry is of its own term. */
  ghost predicate OwnMarks(n: Node) {
    && n.leaderId == n.id == n.vote && n.id in n.prs
    && n.prs[n.id].matched == |n.log.ents| && n.prs[n.id].state == Replicate
    && n.log.ents != [] && n.log.ents[|n.log.ents| - 1].term == n.term
  }

  ghost predicate Marked(n: Node) {
    n.id != INVALID_ID && (n.role == Candidate ==> n.vote == n.id) && (n.role == Leader ==> OwnMarks(n))
  }

  ghost predicate SameMatched(a: map<nat, Pr>, b: map<nat, Pr>) {
    forall j :: j in a ==> j in b && b[j].matched == a[j].matched
  }

  /** The commit rule has just been run on `b`, and only records changed since, not what is matched. */
  ghost predicate RuleRun(b: Node, n: Node) {
    && b.WellFormed() && n.log == MaybeCommit(b).log && n.term == b.term && n.voters == b.voters
    && SameMatched(b.prs, n.prs) && b.log.base == 0
  }

  /** A step that leaves alone what the commit rule looks at. */
  ghost predicate Unmoved(n: Node, n': Node) {
    && n.role == Leader && n'.term == n.term && n'.voters == n.voters && SameMatched(n'.prs, n.prs)
    && n'.log.ents == n.log.ents && n'.log.base == n.log.base && n'.log.baseTerm == n.log.baseTerm
    && n'.log.committed >= n.log.committed
  }

  ghost predicate RuleKept(n: Node, n': Node) {
    n'.role == Leader ==> Unmoved(n, n') || exists b :: RuleRun(b, n')
  }

  ghost predicate StaysMarked(n: Node, o: Outcome) { o.Done? ==> Marked(o.node) && RuleKept(n, o.node) }

  // ---- appending ----

  lemma AppendMarked(n: Node, es: seq<Entry>)
    requires n.WellFormed() && n.log.base == 0 && n.role == Leader && n.id != INVALID_ID
    requires n.leaderId == n.id == n.vote && n.prs[n.id].matched == |n.log.ents| && n.prs[n.id].state == Replicate
    requires es != [] || (n.log.ents != [] && n.log.ents[|n.log.ents| - 1].term == n.term)
    ensures var n' := AppendEntry(n, es); Marked(n') && RuleRun(Appended(n, es), n')
  {
    AppendedGains(n, es);
    if es != [] { assert Carries(Appended(n, es).log.ents[|n.log.ents| + (|es| - 1)], es[|es| - 1]); }
  }

  lemma BecomeLeaderMarked(c: Node)
    requires c.WellFormed() && c.log.base == 0 && c.vote == c.id != INVALID_ID
    ensures var n := BecomeLeader(c); n.role == Leader && Marked(n) && exists b :: RuleRun(b, n)
  {
    AppendMarked(Enthroned(c), [EMPTY_ENTRY]);
  }

  lemma ElectionMarked(n: Node, b: Node)
    requires b.WellFormed() && b.log.base == 0 && b.id != INVALID_ID
    ensures StaysMarked(n, CampaignElection(b))
  {
    BecomeLeaderMarked(RegisterVote(BecomeCandidate(b), b.id, true));
  }

  lemma CampaignMarked(n: Node)
    requires n.WellFormed() && n.log.base == 0 && n.id != INVALID_ID
    ensures StaysMarked(n, CampaignElection(n)) && StaysMarked(n, CampaignPreElection(n))
  {
    ElectionMarked(n, n);
    ElectionMarked(n, RegisterVote(BecomePreCandidate(n), n.id, true));
  }

  lemma UnmovedSame(n: Node)
    ensures n.role == Leader ==> Unmoved(n, n)
  {
  }

  lemma HupMarked(n: Node)
    requires n.WellFormed() && n.log.base == 0 && Marked(n)
    ensures StaysMarked(n, Hup(n))
  {
    if n.role == Leader { UnmovedSame(n); } else { CampaignMarked(n); }
  }

  // ---- sending ----

  lemma SendKeepsMatched(n: Node, to: nat)
    requires to in n.prs
    ensures var s := SendTo(n, to); s.Sending? ==> s.pr.matched == n.prs[to].matched
  {
  }

  lemma BroadcastKeeps(n: Node)
    requires Broadcast(n).Done?
    ensures var n' := Broadcast(n).node;
            && n' == n.(prs := n'.prs) && SameMatched(n.prs, n'.prs) && SameMatched(n'.prs, n.prs)
            && (n.id in n.prs ==> n'.prs[n.id] == n.prs[n.id])
  {
    var n' := Broadcast(n).node;
    forall j | j in n.prs ensures n'.prs[j].matched == n.prs[j].matched {
      if j != n.id { SendKeepsMatched(n, j); }
    }
  }

  lemma RuleOutlives(b: Node, n: Node, n': Node)
    requires RuleRun(b, n) && n'.log == n.log && n'.term == n.term && n'.voters == n.voters
    requires SameMatched(n.prs, n'.prs)
    ensures RuleRun(b, n')
  {
  }

  lemma LeadMarked(n: Node, c: Node)
    requires c.WellFormed() && c.log.base == 0 && c.vote == c.id != INVALID_ID
    ensures StaysMarked(n, Broadcast(BecomeLeader(c)))
  {
    BecomeLeaderMarked(c);
    if Broadcast(BecomeLeader(c)).Done? {
      var b :| RuleRun(b, BecomeLeader(c));
      BroadcastMarked(BecomeLeader(c), b);
    }
  }

  lemma BroadcastMarked(n: Node, b: Node)
    requires Broadcast(n).Done? && Marked(n) && n.role == Leader && RuleRun(b, n)
    ensures Marked(Broadcast(n).node) && RuleRun(b, Broadcast(n).node)
  {
    BroadcastKeeps(n);
    RuleOutlives(b, n, Broadcast(n).node);
  }

  lemma CountVoteMarked(n: Node, m: Message, ch: Choice)
    requires n.WellFormed() && n.log.base == 0 && Marked(n) && n.role in {PreCandidate, Candidate}
    ensures StaysMarked(n, CountVote(n, m, ch))
  {
    var c := RegisterVote(n, m.from, !m.reject);
    if Elected(c) {
      if c.role == PreCandidate { ElectionMarked(n, c); } else { LeadMarked(n, c); }
    }
  }

  lemma SendAppendMarked(n: Node, to: nat)
    requires Marked(n) && n.role == Leader && to != n.id
    ensures StaysMarked(n, SendAppend(n, to))
  {
    if to in n.prs { SendKeepsMatched(n, to); }
  }

  // ---- receiving ----

  lemma AcknowledgedMarked(n: Node, m: Message)
    requires n.WellFormed() && n.log.base == 0 && Marked(n) && n.role == Leader && m.from != n.id
    ensures StaysMarked(n, HandleAppendResponse(n, m))
  {
    if m.from in n.prs && !m.reject {
      var b := n.(prs := n.prs[m.from := n.prs[m.from].MaybeUpdate(m.index)]);
      assert RuleRun(b, MaybeCommit(b));
    }
  }

  lemma CandidateMarked(n: Node, m: Message, ch: Choice)
    requires n.WellFormed() && n.log.base == 0 && Marked(n) && n.role in {PreCandidate, Candidate}
    ensures StaysMarked(n, StepCandidate(n, m, ch))
  {
    match m.mtype {
      case MsgRequestVoteResponse => CountVoteMarked(n, m, ch);
      case MsgRequestPreVoteResponse => CountVoteMarked(n, m, ch);
      case _ =>
    }
  }

  lemma VoteMarked(n: Node, m: Message)
    requires Marked(n) && Foreign(n, m)
    ensures StaysMarked(n, HandleVoteRequest(n, m))
  {
  }

  lemma DispatchMarked(n: Node, m: Message, ch: Choice)
    requires n.WellFormed() && n.log.base == 0 && Marked(n) && Foreign(n, m)
    ensures StaysMarked(n, Dispatch(n, m, ch))
  {
    if m.mtype in {MsgRequestVote, MsgRequestPreVote} {
      VoteMarked(n, m);
    } else if n.role in {PreCandidate, Candidate} {
      CandidateMarked(n, m, ch);
    } else if n.role == Leader && m.mtype == MsgAppendResponse {
      AcknowledgedMarked(n, m);
    }
  }

  lemma StepMarked(n: Node, m: Message, ch: Choice)
    requires n.WellFormed() && n.log.base == 0 && Marked(n) && Foreign(n, m)
    ensures StaysMarked(n, Step(n, m, ch))
  {
    match Enter(n, m, ch) {
      case Finished(_, _) =>
      case Proceed(n') =>
        DispatchMarked(n', m, ch);
        if n' != n { NoLeader(n', m, ch); }
    }
  }

  /** A follower does not come to lead by a message. */
  lemma NoLeader(n: Node, m: Message, ch: Choice)
    requires n.WellFormed() && n.role == Follower && m.mtype != MsgHup
    ensures Dispatch(n, m, ch).Done? ==> Dispatch(n, m, ch).node.role == Follower
  {
  }

  lemma PerformMarked(n: Node, a: Action)
    requires n.WellFormed() && n.log.base == 0 && Marked(n) && (a.Deliver? ==> Foreign(n, a.m))
    requires a.Propose? || a.Replicating? || a.Beat? || a.Tune? ==> n.role == Leader
    requires a.Replicating? ==> a.to != n.id
    requires a.Tune? ==> a.peer != n.id
    ensures StaysMarked(n, Perform(n, a))
  {
    match a {
      case Deliver(m, ch) => StepMarked(n, m, ch);
      case Timeout => HupMarked(n);
      case Propose(es) => AppendMarked(n, es);
      case Replicating(to) => SendAppendMarked(n, to);
      case _ =>
    }
  }

  // ---- runs ----

  /** Every index a majority has reached, with an entry of the leader's own term, is committed. */
  ghost predicate CommitsAll(n: Node) { forall idx: nat :: MayCommit(n, idx) ==> idx <= n.log.committed }

  lemma RuleCommitsAll(b: Node, n: Node)
    requires RuleRun(b, n) && Committable(n) && n.voters <= n.prs.Keys
    ensures CommitsAll(n)
  {
    var top := MaximalCommitted(b.prs, b.voters);
    assert Committable(b) by { BeforeCommittable(b, n); }
    CommitRuleExact(b);
    forall idx: nat | MayCommit(n, idx) ensures idx <= n.log.committed {
      SubsetSize(Reached(n.prs, n.voters, idx), Reached(b.prs, b.voters, idx));
      assert MayCommit(b, idx);
    }
  }

  lemma BeforeCommittable(b: Node, n: Node)
    requires RuleRun(b, n) && Committable(n) && b.log.base <= b.log.committed
    ensures Committable(b)
  {
    forall x, y | b.log.base <= x <= y <= b.log.LastIndex() ensures b.log.TermAt(x) <= b.log.TermAt(y) {
      assert n.log.TermAt(x) <= n.log.TermAt(y);
    }
  }

  lemma UnmovedCommitsAll(n: Node, n': Node)
    requires Unmoved(n, n') && CommitsAll(n) && n.WellFormed()
    ensures CommitsAll(n')
  {
    forall idx: nat | MayCommit(n', idx) ensures idx <= n'.log.committed {
      SubsetSize(Reached(n'.prs, n'.voters, idx), Reached(n.prs, n.voters, idx));
      assert MayCommit(n, idx);
    }
  }

  ghost predicate Leads(n: Node) { Marked(n) && (n.role == Leader ==> CommitsAll(n)) }

  ghost predicate AllLead(s: State) { forall i :: i in s.nodes ==> Leads(s.nodes[i]) }

  ghost predicate AllCommittable(s: State) {
    forall i :: i in s.nodes && s.nodes[i].role == Leader ==> Committable(s.nodes[i])
  }

  ghost function LedMoves(): Moves {
    (s: State, s': State) => Living()(s, s') && AllApart(s) && AllCommittable(s')
  }

  lemma RunLeads(r: Run, voters: set<nat>)
    requires IsRun(r, voters)
    ensures forall k :: 0 <= k < |r| - 1 ==> MovesAt(r, k, LedMoves())
  {
    RunLives(r, voters);
    forall k | 0 <= k < |r| - 1 ensures MovesAt(r, k, LedMoves()) {
      assert MovesAt(r, k, Living());
      AlwaysApart(r, voters, k);
      AlwaysCommittable(r, voters, k + 1);
    }
  }

  lemma AlwaysCommittable(r: Run, voters: set<nat>, k: nat)
    requires IsRun(r, voters) && k < |r|
    ensures AllCommittable(r[k])
  {
    forall i | i in r[k].nodes && r[k].nodes[i].role == Leader ensures Committable(r[k].nodes[i]) {
      CommitRuleInRuns(r, voters, k, i);
    }
  }

  lemma StepLeads(s: State, s': State, i: nat, a: Action)
    requires NextBy(s, s', i, a) && Healthy(s) && AllApart(s) && Leads(s.nodes[i])
    requires i in s'.nodes && s'.nodes[i].WellFormed() && (s'.nodes[i].role == Leader ==> Committable(s'.nodes[i]))
    ensures Leads(s'.nodes[i])
  {
    var n, n' := s.nodes[i], s'.nodes[i];
    PerformMarked(n, a);
    if n'.role == Leader {
      if Unmoved(n, n') {
        UnmovedCommitsAll(n, n');
      } else {
        var b :| RuleRun(b, n');
        RuleCommitsAll(b, n');
      }
    }
  }

  lemma NextLeads(s: State, s': State)
    requires LedMoves()(s, s') && AllLead(s)
    ensures AllLead(s')
  {
    assert Living()(s, s');
    var i, a := NextActor(s, s');
    StepLeads(s, s', i, a);
    OthersLead(s, s', i);
  }

  lemma NextActor(s: State, s': State) returns (i: nat, a: Action)
    requires Living()(s, s')
    ensures NextBy(s, s', i, a) && Healthy(s) && Healthy(s') && i in s.nodes && i in s'.nodes
    ensures s'.nodes == s.nodes[i := s'.nodes[i]]
  {
    i, a :| NextBy(s, s', i, a);
  }

  lemma OthersLead(s: State, s': State, i: nat)
    requires AllLead(s) && i in s.nodes && i in s'.nodes && s'.nodes == s.nodes[i := s'.nodes[i]]
    requires Leads(s'.nodes[i])
    ensures AllLead(s')
  {
  }

  lemma LeadAtFirst(s: State, voters: set<nat>)
    requires Init(s, voters)
    ensures AllLead(s)
  {
  }

  lemma AlwaysLead(r: Run, voters: set<nat>, k: nat)
    requires IsRun(r, voters) && k < |r|
    ensures AllLead(r[k])
  {
    RunLeads(r, voters);
    LeadAtFirst(r[0], voters);
    forall s, s' | LedMoves()(s, s') && AllLead(s) ensures AllLead(s') { NextLeads(s, s'); }
    TraceKeeps(r, LedMoves(), AllLead, k);
  }

  /** At every moment of every run a leader has committed every index that a majority has reached with an
      entry of its term: nothing waits for the commit rule to be run again. It voted for itself, follows
      itself, counts its whole log as matched, and its log ends in its term. */
  lemma NothingLeftToCommit(r: Run, voters: set<nat>, k: nat, i: nat, idx: nat)
    requires IsRun(r, voters) && k < |r| && i in r[k].nodes && r[k].nodes[i].role == Leader
    ensures OwnMarks(r[k].nodes[i])
    ensures MayCommit(r[k].nodes[i], idx) ==> idx <= r[k].nodes[i].log.committed
  {
    AlwaysLead(r, voters, k);
    assert Leads(r[k].nodes[i]);
  }
}
