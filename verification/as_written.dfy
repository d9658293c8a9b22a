/** What becomes of the runs when the append handler compares the term it is written to compare: the
    message's own, where the previous entry's is meant. Nothing is ever replicated. */
module AsWritten {
  import opened RaftTypes
  import opened AbstractLog
  import opened ProgressSpec
  import opened Quorum
  import opened NodeSpec
  import opened Cluster
  import opened Theorems
  import opened RunProperties
  import opened Proposals
  import E = ExampleRun

  // ---- one node ----

  /** The log only grew, and only by entries of the term the node now leads. */
  ghost predicate Grown(es: seq<Entry>, n: Node) {
    && es <= n.log.ents
    && (n.log.ents != es ==> n.role == Leader)
    && forall x :: |es| <= x < |n.log.ents| ==> n.log.ents[x].term == n.term
  }

  /** Appends are sent by a leader in its term, and not to itself. */
  ghost predicate LeaderSends(n: Node, out: set<Message>) {
    forall m :: m in out && m.mtype == MsgAppend ==>
      m.from == n.id && m.to != n.id && n.role == Leader && m.term == n.term
  }

  ghost predicate Plain(n: Node, o: Outcome) {
    o.Done? ==> o.node.id == n.id && Grown(n.log.ents, o.node) && LeaderSends(o.node, o.out)
  }

  lemma AppendedGrown(n: Node, es: seq<Entry>)
    requires n.WellFormed() && n.role == Leader
    ensures var n' := AppendEntry(n, es); n'.id == n.id && n'.role == Leader && Grown(n.log.ents, n')
  {
    var stamped := Stamped(es, n.term, n.log.LastIndex() + 1);
    assert Appended(n, es).log.ents == n.log.ents + stamped;
  }

  lemma BecomeLeaderGrown(c: Node)
    requires c.WellFormed()
    ensures var n' := BecomeLeader(c); n'.id == c.id && n'.role == Leader && Grown(c.log.ents, n')
  {
    AppendedGrown(Enthroned(c), [EMPTY_ENTRY]);
  }

  lemma ElectionPlain(n: Node)
    requires n.WellFormed()
    ensures Plain(n, CampaignElection(n))
  {
    BecomeLeaderGrown(RegisterVote(BecomeCandidate(n), n.id, true));
  }

  lemma CampaignPlain(n: Node)
    requires n.WellFormed()
    ensures Plain(n, CampaignElection(n)) && Plain(n, CampaignPreElection(n))
  {
    ElectionPlain(n);
    ElectionPlain(RegisterVote(BecomePreCandidate(n), n.id, true));
  }

  lemma SendPlain(n: Node, to: nat)
    requires to in n.prs
    ensures var s := SendTo(n, to);
            s.Sending? ==>
            forall m :: m in s.out ==> m.mtype == MsgAppend && m.from == n.id && m.to == to && m.term == n.term
  {
  }

  lemma BroadcastSends(n: Node)
    requires n.role == Leader && Broadcast(n).Done?
    ensures var o := Broadcast(n); o.node == n.(prs := o.node.prs) && LeaderSends(n, o.out)
  {
    forall j | j in n.prs ensures var s := SendTo(n, j);
      s.Sending? ==> forall m :: m in s.out ==> m.mtype == MsgAppend && m.from == n.id && m.to == j && m.term == n.term
    {
      SendPlain(n, j);
    }
  }

  lemma LeadPlain(c: Node)
    requires c.WellFormed()
    ensures Plain(c, Broadcast(BecomeLeader(c)))
  {
    BecomeLeaderGrown(c);
    if Broadcast(BecomeLeader(c)).Done? { BroadcastSends(BecomeLeader(c)); }
  }

  lemma CountVotePlain(n: Node, m: Message, ch: Choice)
    requires n.WellFormed()
    ensures Plain(n, CountVote(n, m, ch))
  {
    var c := RegisterVote(n, m.from, !m.reject);
    if Elected(c) {
      if c.role == PreCandidate { CampaignPlain(c); } else { LeadPlain(c); }
    }
  }

  /** The one way a log could change otherwise: an append that is accepted. */
  ghost predicate Refused(n: Node, m: Message, ch: Choice) {
    m.mtype == MsgAppend ==> ch.byMessageTerm && !n.log.MatchTerm(m.index, m.term)
  }

  lemma HandleAppendPlain(n: Node, m: Message, ch: Choice)
    requires m.mtype == MsgAppend && Refused(n, m, ch)
    ensures Plain(n, HandleAppend(n, m, ch))
  {
  }

  lemma StepCandidatePlain(n: Node, m: Message, ch: Choice)
    requires n.WellFormed() && Refused(n, m, ch)
    ensures Plain(n, StepCandidate(n, m, ch))
  {
    match m.mtype {
      case MsgAppend => HandleAppendPlain(BecomeFollower(n, m.term, m.from), m, ch);
      case MsgRequestVoteResponse => CountVotePlain(n, m, ch);
      case MsgRequestPreVoteResponse => CountVotePlain(n, m, ch);
      case _ =>
    }
  }

  lemma HandleAppendResponsePlain(n: Node, m: Message)
    requires n.WellFormed()
    ensures Plain(n, HandleAppendResponse(n, m))
  {
  }

  lemma DispatchPlain(n: Node, m: Message, ch: Choice)
    requires n.WellFormed() && Refused(n, m, ch)
    ensures Plain(n, Dispatch(n, m, ch))
  {
    if m.mtype == MsgHup {
      CampaignPlain(n);
    } else if m.mtype in {MsgRequestVote, MsgRequestPreVote} {
    } else if n.role in {PreCandidate, Candidate} {
      StepCandidatePlain(n, m, ch);
    } else if n.role == Follower {
      if m.mtype == MsgAppend { HandleAppendPlain(n, m, ch); }
    } else {
      HandleAppendResponsePlain(n, m);
    }
  }

  lemma StepPlain(n: Node, m: Message, ch: Choice)
    requires n.WellFormed() && Refused(n, m, ch)
    ensures Plain(n, Step(n, m, ch))
  {
    match Enter(n, m, ch) {
      case Finished(_, _) =>
      case Proceed(n') =>
        assert n'.log == n.log && n'.id == n.id;
        DispatchPlain(n', m, ch);
    }
  }

  /** What a run as written asks of an action: the handler compares the message's own term. */
  ghost predicate Written(a: Action) { a.Deliver? ==> a.ch.byMessageTerm }

  lemma PerformPlain(n: Node, a: Action)
    requires n.WellFormed() && (a.Deliver? ==> Refused(n, a.m, a.ch))
    requires a.Propose? || a.Replicating? ==> n.role == Leader
    requires a.Replicating? ==> a.to != n.id
    ensures Plain(n, Perform(n, a))
  {
    match a {
      case Deliver(m, ch) => StepPlain(n, m, ch);
      case Timeout => StepPlain(n, HupMessage(n), Choice(false, false, false));
      case Propose(es) => AppendedGrown(n, es);
      case Replicating(to) => if to in n.prs { SendPlain(n, to); }
      case _ =>
    }
  }

  // ---- nothing acknowledged ----

  /** There are two voters or more. */
  ghost predicate Several(voters: set<nat>) {
    exists a, b :: a in voters && b in voters && a != b
  }

  lemma SeveralMajority(voters: set<nat>)
    requires Several(voters)
    ensures Majority(|voters|) >= 2
  {
    var a, b :| a in voters && b in voters && a != b;
    SubsetSize({a, b}, voters);
  }

  ghost predicate NoneMatched(n: Node) {
    forall j :: j in n.prs && j != n.id ==> n.prs[j].matched == 0
  }

  /** Nothing is committed, and a leader knows of no entry at any peer. */
  ghost predicate Unheard(n: Node) { n.log.committed == 0 && (n.role == Leader ==> NoneMatched(n)) }

  /** Acknowledges nothing and commits nothing. */
  ghost predicate Silent(m: Message) {
    && (m.mtype == MsgAppendResponse && !m.reject ==> m.index == 0)
    && (m.mtype in {MsgAppend, MsgHeartbeat} ==> m.commit == 0)
  }

  ghost predicate StaysUnheard(o: Outcome) {
    o.Done? ==> Unheard(o.node) && forall m :: m in o.out ==> Silent(m)
  }

  lemma MaybeCommitNothing(n: Node)
    requires n.WellFormed() && Several(n.voters) && NoneMatched(n)
    ensures MaybeCommit(n) == n
  {
    var top := MaximalCommitted(n.prs, n.voters);
    var reached := Reached(n.prs, n.voters, top);
    SeveralMajority(n.voters);
    SubsetSize(if top > 0 then reached else {}, {n.id});
    assert top == 0;
  }

  lemma AppendUnheard(n: Node, es: seq<Entry>)
    requires n.WellFormed() && Several(n.voters) && n.log.committed == 0 && NoneMatched(n)
    ensures Unheard(AppendEntry(n, es)) && NoneMatched(AppendEntry(n, es))
  {
    AppendedGains(n, es);
    MaybeCommitNothing(Appended(n, es));
  }

  lemma BecomeLeaderUnheard(c: Node)
    requires c.WellFormed() && Several(c.voters) && c.log.committed == 0
    ensures Unheard(BecomeLeader(c)) && NoneMatched(BecomeLeader(c))
  {
    AppendUnheard(Enthroned(c), [EMPTY_ENTRY]);
  }

  lemma ElectionUnheard(n: Node)
    requires n.WellFormed() && Several(n.voters) && n.log.committed == 0
    ensures StaysUnheard(CampaignElection(n))
  {
    BecomeLeaderUnheard(RegisterVote(BecomeCandidate(n), n.id, true));
  }

  lemma CampaignUnheard(n: Node)
    requires n.WellFormed() && Several(n.voters) && n.log.committed == 0
    ensures StaysUnheard(CampaignElection(n)) && StaysUnheard(CampaignPreElection(n))
  {
    ElectionUnheard(n);
    ElectionUnheard(RegisterVote(BecomePreCandidate(n), n.id, true));
  }

  lemma SendUnheard(n: Node, to: nat)
    requires to in n.prs && n.log.committed == 0
    ensures var s := SendTo(n, to);
            s.Sending? ==> s.pr.matched == n.prs[to].matched && forall m :: m in s.out ==> Silent(m)
  {
  }

  lemma BroadcastUnheard(n: Node)
    requires n.log.committed == 0 && NoneMatched(n) && Broadcast(n).Done?
    ensures StaysUnheard(Broadcast(n))
  {
    forall j | j in n.prs ensures var s := SendTo(n, j);
      s.Sending? ==> s.pr.matched == n.prs[j].matched && forall m :: m in s.out ==> Silent(m)
    {
      SendUnheard(n, j);
    }
  }

  lemma LeadUnheard(c: Node)
    requires c.WellFormed() && Several(c.voters) && c.log.committed == 0
    ensures StaysUnheard(Broadcast(BecomeLeader(c)))
  {
    BecomeLeaderUnheard(c);
    if Broadcast(BecomeLeader(c)).Done? { BroadcastUnheard(BecomeLeader(c)); }
  }

  lemma CountVoteUnheard(n: Node, m: Message, ch: Choice)
    requires n.WellFormed() && Several(n.voters) && n.log.committed == 0 && n.role in {PreCandidate, Candidate}
    ensures StaysUnheard(CountVote(n, m, ch))
  {
    var c := RegisterVote(n, m.from, !m.reject);
    if Elected(c) {
      if c.role == PreCandidate {
        CampaignUnheard(c);
      } else {
        LeadUnheard(c);
      }
    }
  }

  lemma HandleAppendUnheard(n: Node, m: Message, ch: Choice)
    requires Unheard(n) && m.mtype == MsgAppend && Refused(n, m, ch)
    ensures StaysUnheard(HandleAppend(n, m, ch))
  {
  }

  lemma HandleResponseUnheard(n: Node, m: Message)
    requires n.WellFormed() && Several(n.voters) && Unheard(n) && n.role == Leader
    requires m.mtype == MsgAppendResponse && Silent(m)
    ensures StaysUnheard(HandleAppendResponse(n, m))
  {
    if m.from in n.prs && !m.reject {
      MaybeCommitNothing(n.(prs := n.prs[m.from := n.prs[m.from].MaybeUpdate(m.index)]));
    }
  }

  lemma StepCandidateUnheard(n: Node, m: Message, ch: Choice)
    requires n.WellFormed() && Several(n.voters) && Unheard(n) && n.role in {PreCandidate, Candidate}
    requires Silent(m) && Refused(n, m, ch)
    ensures StaysUnheard(StepCandidate(n, m, ch))
  {
    match m.mtype {
      case MsgAppend => HandleAppendUnheard(BecomeFollower(n, m.term, m.from), m, ch);
      case MsgRequestVoteResponse => CountVoteUnheard(n, m, ch);
      case MsgRequestPreVoteResponse => CountVoteUnheard(n, m, ch);
      case _ =>
    }
  }

  lemma StepFollowerUnheard(n: Node, m: Message, ch: Choice)
    requires Unheard(n) && n.role == Follower && Silent(m) && Refused(n, m, ch)
    ensures StaysUnheard(StepFollower(n, m, ch))
  {
    if m.mtype == MsgAppend { HandleAppendUnheard(n, m, ch); }
  }

  lemma StepLeaderUnheard(n: Node, m: Message)
    requires n.WellFormed() && Several(n.voters) && Unheard(n) && n.role == Leader && Silent(m)
    ensures StaysUnheard(StepLeader(n, m))
  {
    if m.mtype == MsgAppendResponse { HandleResponseUnheard(n, m); }
  }

  lemma HupUnheard(n: Node)
    requires n.WellFormed() && Several(n.voters) && Unheard(n)
    ensures StaysUnheard(Hup(n))
  {
    CampaignUnheard(n);
  }

  lemma VoteUnheard(n: Node, m: Message)
    requires Unheard(n) && m.mtype in {MsgRequestVote, MsgRequestPreVote}
    ensures StaysUnheard(HandleVoteRequest(n, m))
  {
  }

  lemma DispatchUnheard(n: Node, m: Message, ch: Choice)
    requires n.WellFormed() && Several(n.voters) && Unheard(n) && Silent(m) && Refused(n, m, ch)
    ensures StaysUnheard(Dispatch(n, m, ch))
  {
    if m.mtype == MsgHup {
      HupUnheard(n);
    } else if m.mtype in {MsgRequestVote, MsgRequestPreVote} {
      VoteUnheard(n, m);
    } else if n.role in {PreCandidate, Candidate} {
      StepCandidateUnheard(n, m, ch);
    } else if n.role == Follower {
      StepFollowerUnheard(n, m, ch);
    } else {
      StepLeaderUnheard(n, m);
    }
  }

  lemma StepUnheard(n: Node, m: Message, ch: Choice)
    requires n.WellFormed() && Several(n.voters) && Unheard(n) && Silent(m) && Refused(n, m, ch)
    ensures StaysUnheard(Step(n, m, ch))
  {
    match Enter(n, m, ch) {
      case Finished(_, _) =>
      case Proceed(n') =>
        assert n'.log == n.log && n'.voters == n.voters && n'.WellFormed();
        DispatchUnheard(n', m, ch);
    }
  }

  lemma PerformUnheard(n: Node, a: Action)
    requires n.WellFormed() && Several(n.voters) && Unheard(n)
    requires a.Deliver? ==> Silent(a.m) && Refused(n, a.m, a.ch)
    requires a.Propose? || a.Replicating? || a.Beat? || a.Tune? ==> n.role == Leader
    requires a.Crash? ==> a.hs.commit <= n.log.committed && n.log.base == 0
    ensures StaysUnheard(Perform(n, a))
  {
    match a {
      case Deliver(m, ch) => StepUnheard(n, m, ch);
      case Timeout => StepUnheard(n, HupMessage(n), Choice(false, false, false));
      case Propose(es) => AppendUnheard(n, es);
      case Replicating(to) => if to in n.prs { SendUnheard(n, to); }
      case _ =>
    }
  }

  // ---- runs ----

  ghost predicate WrittenStep(s: State, s': State, i: nat, a: Action) { NextBy(s, s', i, a) && Written(a) }

  ghost predicate WrittenNext(s: State, s': State) {
    exists i, a :: WrittenStep(s, s', i, a)
  }

  ghost predicate WrittenAt(r: Run, k: nat)
    requires k + 1 < |r|
  {
    WrittenNext(r[k], r[k + 1])
  }

  /** A run in which every append is handled as written. */
  ghost predicate IsWrittenRun(r: Run, voters: set<nat>) {
    r != [] && Init(r[0], voters) && forall k :: 0 <= k < |r| - 1 ==> WrittenAt(r, k)
  }

  lemma WrittenIsRun(r: Run, voters: set<nat>)
    requires IsWrittenRun(r, voters)
    ensures IsRun(r, voters)
  {
    forall k | 0 <= k < |r| - 1 ensures StepAt(r, k) {
      assert WrittenAt(r, k);
      var i, a :| WrittenStep(r[k], r[k + 1], i, a);
      assert NextBy(r[k], r[k + 1], i, a);
    }
  }

  /** Node `i` leads term `term` at moment `p`. */
  ghost predicate Leads(r: Run, p: nat, i: nat, term: nat)
    requires p < |r|
  {
    i in r[p].nodes && r[p].nodes[i].role == Leader && r[p].nodes[i].term == term
  }

  ghost predicate LedBy(r: Run, k: nat, i: nat, term: nat)
    requires k < |r|
  {
    exists p :: 0 <= p <= k && Leads(r, p, i, term)
  }

  /** At moment `p` node `i` leads the term of `e` and holds it at place `x`. */
  ghost predicate LeadsWith(r: Run, p: nat, i: nat, x: nat, e: Entry)
    requires p < |r|
  {
    Leads(r, p, i, e.term) && x < |r[p].nodes[i].log.ents| && r[p].nodes[i].log.ents[x] == e
  }

  ghost predicate Own(r: Run, k: nat, i: nat, x: nat, e: Entry)
    requires k < |r|
  {
    exists p :: 0 <= p <= k && LeadsWith(r, p, i, x, e)
  }

  ghost predicate OwnLog(r: Run, k: nat, i: nat, es: seq<Entry>)
    requires k < |r|
  {
    forall x :: 0 <= x < |es| ==> Own(r, k, i, x, es[x])
  }

  ghost predicate FromLeader(r: Run, k: nat, m: Message)
    requires k < |r|
  {
    m.mtype == MsgAppend ==> m.from != m.to && LedBy(r, k, m.from, m.term)
  }

  /** Every log holds only what its own node appended as a leader, and appends came from the leader of
      their term to another node. */
  ghost predicate OwnOnly(r: Run, k: nat)
    requires k < |r|
  {
    && (forall i :: i in r[k].nodes ==> OwnLog(r, k, i, r[k].nodes[i].log.ents))
    && (forall m :: m in r[k].sent ==> FromLeader(r, k, m))
  }

  lemma OwnLed(r: Run, k: nat, i: nat, x: nat, e: Entry)
    requires k < |r| && Own(r, k, i, x, e)
    ensures LedBy(r, k, i, e.term)
  {
    var p :| 0 <= p <= k && LeadsWith(r, p, i, x, e);
    assert Leads(r, p, i, e.term);
  }

  /** What a run as written needs of runs: where logs start, and that a term has one leader. */
  ghost predicate Facts(r: Run, voters: set<nat>) {
    && (forall k, i :: 0 <= k < |r| && i in r[k].nodes ==> Shaped(voters, i, r[k].nodes[i]))
    && (forall p, i, term :: 0 <= p < |r| && Leads(r, p, i, term) ==> term >= 1)
    && forall p, q, i, j, term ::
         0 <= p < |r| && 0 <= q < |r| && Leads(r, p, i, term) && Leads(r, q, j, term) ==> i == j
  }

  ghost predicate Shaped(voters: set<nat>, i: nat, n: Node) {
    n.WellFormed() && n.id == i && n.voters == voters && n.log.base == 0 && n.log.baseTerm == 0
  }

  lemma FactsOf(r: Run, voters: set<nat>)
    requires IsRun(r, voters)
    ensures Facts(r, voters)
  {
    forall k, i | 0 <= k < |r| && i in r[k].nodes ensures Shaped(voters, i, r[k].nodes[i]) {
      LogStartsAtOne(r, voters, k, i);
    }
    forall p, i, term | 0 <= p < |r| && Leads(r, p, i, term) ensures term >= 1 {
      CommitRuleInRuns(r, voters, p, i);
    }
    forall p, q, i, j, term | 0 <= p < |r| && 0 <= q < |r| && Leads(r, p, i, term) && Leads(r, q, j, term)
      ensures i == j
    {
      ElectionSafety(r, voters, p, q, i, j);
    }
  }

  lemma OneLed(r: Run, voters: set<nat>, k: nat, i: nat, j: nat, term: nat)
    requires Facts(r, voters) && k < |r| && LedBy(r, k, i, term) && LedBy(r, k, j, term)
    ensures i == j && term >= 1
  {
    var p :| 0 <= p <= k && Leads(r, p, i, term);
    var q :| 0 <= q <= k && Leads(r, q, j, term);
  }

  lemma MatchIsLed(r: Run, k: nat, i: nat, l: Log, idx: nat, term: nat)
    requires k < |r| && OwnLog(r, k, i, l.ents) && term >= 1
    requires l.base == 0 && l.baseTerm == 0 && l.MatchTerm(idx, term)
    ensures LedBy(r, k, i, term)
  {
    OwnLed(r, k, i, idx - 1, l.ents[idx - 1]);
  }

  /** So no append is ever accepted: whoever holds an entry of the sender's term led that term, and a
      term has one leader. */
  lemma OwnOnlyRefuses(r: Run, voters: set<nat>, k: nat, m: Message, ch: Choice)
    requires Facts(r, voters) && k < |r| && OwnOnly(r, k) && m in r[k].sent && m.to in r[k].nodes && ch.byMessageTerm
    ensures Refused(r[k].nodes[m.to], m, ch)
  {
    assert FromLeader(r, k, m);
    if m.mtype == MsgAppend {
      OneLed(r, voters, k, m.from, m.from, m.term);
      assert Shaped(voters, m.to, r[k].nodes[m.to]);
      if r[k].nodes[m.to].log.MatchTerm(m.index, m.term) {
        MatchIsLed(r, k, m.to, r[k].nodes[m.to].log, m.index, m.term);
        OneLed(r, voters, k, m.to, m.from, m.term);
      }
    }
  }

  // ---- one step of such a run ----

  /** What a step did, without the action: one node's log grew as a leader's may, and it sent `out`. */
  ghost predicate EffectBy(s: State, s': State, i: nat, n: Node, out: set<Message>, many: bool) {
    && i in s.nodes && s' == State(s.nodes[i := n], s.sent + out)
    && n.id == i && Grown(s.nodes[i].log.ents, n) && LeaderSends(n, out)
    && (many && AllUnheard(s) ==> Unheard(n) && forall m :: m in out ==> Silent(m))
  }

  ghost predicate EffectNext(s: State, s': State, many: bool) {
    exists i: nat, n: Node, out: set<Message> :: EffectBy(s, s', i, n, out, many)
  }

  /** With two voters or more `many` is true. */
  ghost predicate EffectAt(r: Run, k: nat, many: bool)
    requires k + 1 < |r|
  {
    OwnOnly(r, k) ==> EffectNext(r[k], r[k + 1], many)
  }

  lemma Effect(r: Run, voters: set<nat>, k: nat, i: nat, a: Action, many: bool)
    requires Facts(r, voters) && k + 1 < |r| && WrittenStep(r[k], r[k + 1], i, a) && (many ==> Several(voters))
    ensures EffectAt(r, k, many)
  {
    if OwnOnly(r, k) {
      assert Shaped(voters, i, r[k].nodes[i]);
      WrittenMessage(r[k], r[k + 1], i, a);
      if a.Deliver? { OwnOnlyRefuses(r, voters, k, a.m, a.ch); }
      EffectOf(r[k], r[k + 1], i, a, many);
    }
  }

  lemma EffectThere(r: Run, voters: set<nat>, k: nat, many: bool)
    requires Facts(r, voters) && k + 1 < |r| && WrittenAt(r, k) && (many ==> Several(voters))
    ensures EffectAt(r, k, many)
  {
    var i, a :| WrittenStep(r[k], r[k + 1], i, a);
    Effect(r, voters, k, i, a, many);
  }

  lemma WrittenMessage(s: State, s': State, i: nat, a: Action)
    requires WrittenStep(s, s', i, a) && i in s.nodes && s.nodes[i].id == i
    ensures a.Deliver? ==> a.m in s.sent && a.m.to == i && a.ch.byMessageTerm
  {
  }

  lemma EffectOf(s: State, s': State, i: nat, a: Action, many: bool)
    requires WrittenStep(s, s', i, a) && i in s.nodes && s.nodes[i].id == i && s.nodes[i].log.base == 0
    requires a.Deliver? ==> a.m in s.sent && Refused(s.nodes[i], a.m, a.ch)
    requires many ==> Several(s.nodes[i].voters)
    ensures EffectNext(s, s', many)
  {
    PerformPlain(s.nodes[i], a);
    if many && AllUnheard(s) { PerformUnheard(s.nodes[i], a); }
    var o := Perform(s.nodes[i], a);
    assert EffectBy(s, s', i, o.node, o.out, many);
  }

  lemma OwnLater(r: Run, k: nat, i: nat, x: nat, e: Entry)
    requires k + 1 < |r| && Own(r, k, i, x, e)
    ensures Own(r, k + 1, i, x, e)
  {
    var p :| 0 <= p <= k && LeadsWith(r, p, i, x, e);
    assert LeadsWith(r, p, i, x, e);
  }

  lemma OwnLogLater(r: Run, k: nat, i: nat, es: seq<Entry>)
    requires k + 1 < |r| && OwnLog(r, k, i, es)
    ensures OwnLog(r, k + 1, i, es)
  {
    forall x | 0 <= x < |es| ensures Own(r, k + 1, i, x, es[x]) { OwnLater(r, k, i, x, es[x]); }
  }

  lemma OwnLogGrown(r: Run, k: nat, i: nat, es: seq<Entry>, n: Node)
    requires k + 1 < |r| && OwnLog(r, k, i, es) && Grown(es, n) && i in r[k + 1].nodes && r[k + 1].nodes[i] == n
    ensures OwnLog(r, k + 1, i, n.log.ents)
  {
    forall x | 0 <= x < |n.log.ents| ensures Own(r, k + 1, i, x, n.log.ents[x]) {
      if x < |es| {
        OwnLater(r, k, i, x, es[x]);
      } else {
        assert LeadsWith(r, k + 1, i, x, n.log.ents[x]);
      }
    }
  }

  lemma FromLeaderLater(r: Run, k: nat, m: Message)
    requires k + 1 < |r| && FromLeader(r, k, m)
    ensures FromLeader(r, k + 1, m)
  {
    if m.mtype == MsgAppend {
      var p :| 0 <= p <= k && Leads(r, p, m.from, m.term);
      assert Leads(r, p, m.from, m.term);
    }
  }

  lemma FromLeaderNew(r: Run, k: nat, n: Node, out: set<Message>, m: Message)
    requires k < |r| && n.id in r[k].nodes && r[k].nodes[n.id] == n && LeaderSends(n, out) && m in out
    ensures FromLeader(r, k, m)
  {
    if m.mtype == MsgAppend { assert Leads(r, k, n.id, m.term); }
  }

  lemma OwnOnlyStep(r: Run, k: nat, i: nat, n: Node, out: set<Message>)
    requires k + 1 < |r| && OwnOnly(r, k)
    requires i in r[k].nodes && r[k + 1] == State(r[k].nodes[i := n], r[k].sent + out)
    requires n.id == i && Grown(r[k].nodes[i].log.ents, n) && LeaderSends(n, out)
    ensures OwnOnly(r, k + 1)
  {
    var q, s := k + 1, r[k + 1];
    forall j | j in s.nodes ensures OwnLog(r, q, j, s.nodes[j].log.ents) {
      if j == i {
        OwnLogGrown(r, k, i, r[k].nodes[i].log.ents, n);
      } else {
        OwnLogLater(r, k, j, r[k].nodes[j].log.ents);
      }
    }
    forall m | m in s.sent ensures FromLeader(r, q, m) {
      if m in r[k].sent { FromLeaderLater(r, k, m); } else { FromLeaderNew(r, q, n, out, m); }
    }
  }

  ghost predicate AllUnheard(s: State) {
    (forall i :: i in s.nodes ==> Unheard(s.nodes[i])) && forall m :: m in s.sent ==> Silent(m)
  }

  lemma UnheardNext(s: State, s': State, i: nat, n: Node, out: set<Message>)
    requires AllUnheard(s) && i in s.nodes && s' == State(s.nodes[i := n], s.sent + out)
    requires Unheard(n) && forall m :: m in out ==> Silent(m)
    ensures AllUnheard(s')
  {
  }

  /** What every moment of a run as written keeps. */
  ghost predicate Kept(r: Run, k: nat, many: bool)
    requires k < |r|
  {
    OwnOnly(r, k) && (many ==> AllUnheard(r[k]))
  }

  lemma KeptNext(r: Run, k: nat, many: bool)
    requires k + 1 < |r| && EffectAt(r, k, many) && Kept(r, k, many)
    ensures Kept(r, k + 1, many)
  {
    var i: nat, n: Node, out: set<Message> :| EffectBy(r[k], r[k + 1], i, n, out, many);
    OwnOnlyStep(r, k, i, n, out);
    if many { UnheardNext(r[k], r[k + 1], i, n, out); }
  }

  lemma {:induction false} KeptFrom(r: Run, k: nat, many: bool)
    requires k < |r| && Kept(r, 0, many)
    requires forall q :: 0 <= q < |r| - 1 ==> EffectAt(r, q, many)
    ensures Kept(r, k, many)
  {
    if k > 0 {
      KeptFrom(r, k - 1, many);
      KeptNext(r, k - 1, many);
    }
  }

  lemma KeptStart(r: Run, voters: set<nat>)
    requires r != [] && Init(r[0], voters)
    ensures Kept(r, 0, true)
  {
  }

  lemma WrittenParts(r: Run, voters: set<nat>)
    requires IsWrittenRun(r, voters)
    ensures r != [] && Kept(r, 0, true) && Facts(r, voters)
    ensures forall k :: 0 <= k < |r| - 1 ==> WrittenAt(r, k)
  {
    KeptStart(r, voters);
    WrittenIsRun(r, voters);
    FactsOf(r, voters);
  }

  lemma KeptByFacts(r: Run, voters: set<nat>, k: nat, many: bool)
    requires Facts(r, voters) && k < |r| && Kept(r, 0, true) && (many ==> Several(voters))
    requires forall q :: 0 <= q < |r| - 1 ==> WrittenAt(r, q)
    ensures Kept(r, k, many)
  {
    forall q | 0 <= q < |r| - 1 ensures EffectAt(r, q, many) {
      EffectThere(r, voters, q, many);
    }
    KeptFrom(r, k, many);
  }

  lemma KeptAlways(r: Run, voters: set<nat>, k: nat, many: bool)
    requires IsWrittenRun(r, voters) && k < |r| && (many ==> Several(voters))
    ensures Kept(r, k, many)
  {
    WrittenParts(r, voters);
    KeptByFacts(r, voters, k, many);
  }

  const FIRST_REFUSAL := Message(MsgAppendResponse, 1, 2, 1, reject := true)

  lemma GrantingRefuses()
    ensures E.Granting().WellFormed()
    ensures Step(E.Granting(), E.APPEND, AS_MEANT) == Done(E.Following(), {E.ACK})
    ensures Step(E.Granting(), E.APPEND, AS_WRITTEN) == Done(E.Granting(), {FIRST_REFUSAL})
  {
    E.Follows();
  }

  lemma AppendWaits(s: State)
    requires s == E.S3
    ensures E.APPEND in s.sent && 2 in s.nodes && s.nodes[2] == E.Granting()
  {
  }

  /** The first append of the first leader is a case in point: a run reaches the state in which it waits
      for a follower of the leader's term; as meant it is accepted, as written it is refused. */
  lemma FirstAppendRefused() returns (r: Run)
    ensures IsRun(r, E.PAIR)
    ensures var s := r[|r| - 1];
            && E.APPEND in s.sent && E.APPEND.to == 2 && 2 in s.nodes && s.nodes[2].WellFormed()
            && Step(s.nodes[2], E.APPEND, AS_MEANT) == Done(E.Following(), {E.ACK})
            && Step(s.nodes[2], E.APPEND, AS_WRITTEN) == Done(s.nodes[2], {FIRST_REFUSAL})
  {
    r := E.FirstAppendSent();
    AppendWaits(r[|r| - 1]);
    GrantingRefuses();
  }

  /** As written nothing is replicated: over any run every entry of a node's log is one that this very
      node held, at the same place, while it led the entry's term. */
  lemma NothingReplicates(r: Run, voters: set<nat>, k: nat, i: nat, x: nat)
    requires IsWrittenRun(r, voters) && k < |r| && i in r[k].nodes && x < |r[k].nodes[i].log.ents|
    ensures exists p :: 0 <= p <= k && LeadsWith(r, p, i, x, r[k].nodes[i].log.ents[x])
  {
    KeptAlways(r, voters, k, false);
    assert OwnLog(r, k, i, r[k].nodes[i].log.ents);
    assert Own(r, k, i, x, r[k].nodes[i].log.ents[x]);
  }

  /** As written, with two voters or more, nothing is ever committed by anyone. */
  lemma NothingCommits(r: Run, voters: set<nat>, k: nat, i: nat)
    requires IsWrittenRun(r, voters) && k < |r| && i in r[k].nodes && Several(voters)
    ensures r[k].nodes[i].log.committed == 0
  {
    KeptAlways(r, voters, k, true);
    KeptCommitted(r, k, i);
  }

  lemma KeptCommitted(r: Run, k: nat, i: nat)
    requires k < |r| && Kept(r, k, true) && i in r[k].nodes
    ensures r[k].nodes[i].log.committed == 0
  {
    assert Unheard(r[k].nodes[i]);
  }
}
