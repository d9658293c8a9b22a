/** Every action of a cluster keeps it consistent with a history that only grows, so every run has
    such histories. */
module ClusterSafety {
  import opened RaftTypes
  import opened NodeSpec
  import opened Cluster
  import opened History
  import opened HistoryLemmas
  import opened HistorySteps
  import opened NodeSteps
  import opened StepSafety

  // ---- one step of one node ----

  /** An elected candidate takes the lead and says so. */
  lemma LeadSafe(g: Hist, voters: set<nat>, i: nat, c: Node) returns (g': Hist)
    requires Local(g, voters, i, c) && c.WellFormed() && c.role == Candidate && Elected(c)
    ensures Safe(g, g', voters, i, Broadcast(BecomeLeader(c)))
  {
    g' := BecomeLeaderSafe(g, voters, i, c);
    BroadcastSafe(g', voters, i, BecomeLeader(c));
    SafeAfter(g, g', g', voters, i, Broadcast(BecomeLeader(c)));
  }

  lemma CountVoteSafe(g: Hist, voters: set<nat>, i: nat, n: Node, m: Message, ch: Choice) returns (g': Hist)
    requires Local(g, voters, i, n) && m.from in voters && n.role in {Candidate, PreCandidate}
    requires n.role == Candidate && !m.reject ==>
               (m.from, n.term) in g.voted && g.voted[(m.from, n.term)].cand == i
    ensures n.WellFormed() && Safe(g, g', voters, i, CountVote(n, m, ch))
  {
    LocalShape(g, voters, i, n);
    var c := RegisterVote(n, m.from, !m.reject);
    CountVoteOk(g, voters, i, n, m.from, !m.reject);
    if Elected(c) {
      if c.role == PreCandidate {
        g' := CampaignElectionSafe(g, voters, i, c);
      } else {
        g' := LeadSafe(g, voters, i, c);
      }
    } else {
      g' := g;
      if ch.giveUp { Relax(g, voters, i, c, BecomeFollower(c, c.term, INVALID_ID)); }
      SafeAsIs(g, voters, i, CountVote(n, m, ch));
    }
  }

  /** A candidate that hears from a leader of its term follows it. */
  lemma FollowLeaderSafe(g: Hist, voters: set<nat>, i: nat, n: Node, m: Message, ch: Choice) returns (g': Hist)
    requires Local(g, voters, i, n) && MsgOk(g, voters, m) && m.to == i && m.term == n.term
    requires m.mtype in {MsgAppend, MsgHeartbeat}
    ensures var f := BecomeFollower(n, m.term, m.from);
            Safe(g, g', voters, i, if m.mtype == MsgAppend then HandleAppend(f, m, ch) else HandleHeartbeat(f, m))
  {
    var f := BecomeFollower(n, m.term, m.from);
    Relax(g, voters, i, n, f);
    if m.mtype == MsgAppend {
      g' := HandleAppendSafe(g, voters, i, f, m, ch);
    } else {
      g' := g;
      HandleHeartbeatSafe(g, voters, i, f, m);
    }
  }

  lemma StepCandidateSafe(g: Hist, voters: set<nat>, i: nat, n: Node, m: Message, ch: Choice) returns (g': Hist)
    requires Local(g, voters, i, n) && MsgOk(g, voters, m) && n.role in {Candidate, PreCandidate} && m.to == i
    requires m.term == n.term || (m.mtype == MsgRequestPreVoteResponse && m.term > n.term)
    ensures n.WellFormed() && Safe(g, g', voters, i, StepCandidate(n, m, ch))
  {
    LocalShape(g, voters, i, n);
    if m.mtype in {MsgAppend, MsgHeartbeat} {
      g' := FollowLeaderSafe(g, voters, i, n, m, ch);
    } else if (m.mtype == MsgRequestVoteResponse && n.role == Candidate)
           || (m.mtype == MsgRequestPreVoteResponse && n.role == PreCandidate) {
      g' := CountVoteSafe(g, voters, i, n, m, ch);
    } else {
      g' := g;
      SafeAsIs(g, voters, i, Done(n, {}));
    }
  }

  lemma DispatchSafe(g: Hist, voters: set<nat>, i: nat, n: Node, m: Message, ch: Choice) returns (g': Hist)
    requires Local(g, voters, i, n) && MsgOk(g, voters, m) && m.to == i
    requires m.term == n.term || (m.mtype in {MsgRequestPreVote, MsgRequestPreVoteResponse} && m.term > n.term)
    ensures n.WellFormed() && Safe(g, g', voters, i, Dispatch(n, m, ch))
  {
    LocalShape(g, voters, i, n);
    if m.mtype in {MsgRequestVote, MsgRequestPreVote} {
      g' := HandleVoteRequestSafe(g, voters, i, n, m);
    } else if n.role in {PreCandidate, Candidate} {
      g' := StepCandidateSafe(g, voters, i, n, m, ch);
    } else if n.role == Follower && m.mtype == MsgAppend {
      g' := HandleAppendSafe(g, voters, i, n, m, ch);
    } else {
      g' := g;
      if n.role == Follower && m.mtype == MsgHeartbeat {
        HandleHeartbeatSafe(g, voters, i, n, m);
      } else if n.role == Leader && m.mtype == MsgAppendResponse {
        HandleAppendResponseSafe(g, voters, i, n, m);
      } else {
        SafeAsIs(g, voters, i, Dispatch(n, m, ch));
      }
    }
  }

  /** The comparison of terms leaves a node that is consistent, and answers at most. */
  lemma EnterSafe(g: Hist, voters: set<nat>, i: nat, n: Node, m: Message, ch: Choice)
    requires Local(g, voters, i, n) && MsgOk(g, voters, m) && m.to == i
    ensures match Enter(n, m, ch)
            case Finished(n', out) => n' == n && forall x :: x in out ==> MsgOk(g, voters, x)
            case Proceed(n') =>
              && Local(g, voters, i, n')
              && (m.term == n'.term || (m.mtype in {MsgRequestPreVote, MsgRequestPreVoteResponse} && m.term > n'.term))
  {
    match Enter(n, m, ch) {
      case Finished(_, _) =>
      case Proceed(n') => if n' != n { Raise(g, voters, i, n, m.term, n'.leaderId); }
    }
  }

  lemma StepSafe(g: Hist, voters: set<nat>, i: nat, n: Node, m: Message, ch: Choice) returns (g': Hist)
    requires Local(g, voters, i, n) && MsgOk(g, voters, m) && m.to == i
    ensures n.WellFormed() && Safe(g, g', voters, i, Step(n, m, ch))
  {
    LocalShape(g, voters, i, n);
    EnterSafe(g, voters, i, n, m, ch);
    match Enter(n, m, ch) {
      case Finished(n', out) =>
        g' := g;
        SafeAsIs(g, voters, i, Done(n', out));
      case Proceed(n') =>
        g' := DispatchSafe(g, voters, i, n', m, ch);
    }
  }

  // ---- one action of one node ----

  lemma RestartSafe(g: Hist, voters: set<nat>, i: nat, n: Node, hs: HardState, applied: nat)
    requires Local(g, voters, i, n)
    requires hs.term == n.term && hs.vote == n.vote && applied <= hs.commit <= n.log.committed
    ensures Safe(g, g, voters, i, Restart(n, hs, applied))
  {
    Relax(g, voters, i, n, Restart(n, hs, applied).node);
    SafeAsIs(g, voters, i, Restart(n, hs, applied));
  }

  lemma ApplySafe(g: Hist, voters: set<nat>, i: nat, n: Node, idx: nat)
    requires Local(g, voters, i, n) && n.log.CanApply(idx)
    ensures Safe(g, g, voters, i, Done(n.(log := n.log.AppliedTo(idx)), {}))
  {
    Relax(g, voters, i, n, n.(log := n.log.AppliedTo(idx)));
    SafeAsIs(g, voters, i, Done(n.(log := n.log.AppliedTo(idx)), {}));
  }

  lemma TuneSafe(g: Hist, voters: set<nat>, i: nat, n: Node, peer: nat, t: Tuning)
    requires Local(g, voters, i, n) && n.role == Leader && peer in n.prs
    ensures Safe(g, g, voters, i, Done(n.(prs := n.prs[peer := Tuned(n.prs[peer], t)]), {}))
  {
    var pr := Tuned(n.prs[peer], t);
    TunedOk(g, voters, n, peer, t);
    OnePeerOk(g, voters, i, n, peer, pr);
    SafeAsIs(g, voters, i, Done(n.(prs := n.prs[peer := pr]), {}));
  }

  lemma TunedOk(g: Hist, voters: set<nat>, n: Node, peer: nat, t: Tuning)
    requires AcksOk(g, voters) && peer in n.prs && PeerOk(g, n, peer)
    requires n.term in g.led && g.led[n.term] == n.log.ents
    ensures PeerOk(g, n.(prs := n.prs[peer := Tuned(n.prs[peer], t)]), peer)
  {
    assert Acked(g, peer, n.term) <= |n.log.ents|;
  }

  lemma PerformSafe(g: Hist, voters: set<nat>, i: nat, s: State, n: Node, a: Action) returns (g': Hist)
    requires Local(g, voters, i, n) && Enabled(s, n, a) && forall m :: m in s.sent ==> MsgOk(g, voters, m)
    ensures n.WellFormed() && Safe(g, g', voters, i, Perform(n, a))
  {
    LocalShape(g, voters, i, n);
    g' := g;
    match a {
      case Deliver(m, ch) => g' := StepSafe(g, voters, i, n, m, ch);
      case Timeout => g' := HupSafe(g, voters, i, n);
      case Propose(es) => g' := AppendEntrySafe(g, voters, i, n, es);
      case Replicating(to) => SendAppendSafe(g, voters, i, n, to);
      case Beat(to, context) => SendHeartbeatSafe(g, voters, i, n, to, context);
      case Tune(peer, t) => TuneSafe(g, voters, i, n, peer, t);
      case Apply(idx) => ApplySafe(g, voters, i, n, idx);
      case Crash(hs, applied) => RestartSafe(g, voters, i, n, hs, applied);
    }
  }

  // ---- the cluster ----

  ghost predicate Inv(g: Hist, voters: set<nat>, s: State) {
    && INVALID_ID !in voters && (forall i :: i in s.nodes <==> i in voters)
    && HistOk(g, voters)
    && AllNodesOk(g, voters, s.nodes)
    && AllMessagesOk(g, voters, s.sent)
  }

  ghost predicate AllNodesOk(g: Hist, voters: set<nat>, nodes: map<nat, Node>) {
    forall i :: i in nodes ==> NodeOk(g, voters, i, nodes[i])
  }

  ghost predicate AllMessagesOk(g: Hist, voters: set<nat>, sent: set<Message>) {
    forall m :: m in sent ==> MsgOk(g, voters, m)
  }

  lemma NextKeepsNodes(g: Hist, g': Hist, voters: set<nat>, nodes: map<nat, Node>, i: nat, n': Node)
    requires LedOk(g) && AcksOk(g, voters) && Advance(g, g', i)
    requires AllNodesOk(g, voters, nodes) && i in nodes && NodeOk(g', voters, i, n')
    ensures AllNodesOk(g', voters, nodes[i := n'])
  {
    var nodes' := nodes[i := n'];
    forall j | j in nodes' ensures NodeOk(g', voters, j, nodes'[j]) {
      if j != i { NodeOkGrows(g, g', voters, i, j, nodes[j]); }
    }
  }

  lemma NextKeepsMessages(g: Hist, g': Hist, voters: set<nat>, sent: set<Message>, out: set<Message>)
    requires Grows(g, g') && AllMessagesOk(g, voters, sent) && AllMessagesOk(g', voters, out)
    ensures AllMessagesOk(g', voters, sent + out)
  {
    forall m | m in sent + out ensures MsgOk(g', voters, m) {
      if m !in out { MsgOkGrows(g, g', voters, m); }
    }
  }

  /** In a consistent cluster no enabled action panics. */
  lemma ActionDoesNotPanic(g: Hist, voters: set<nat>, s: State, i: nat, a: Action)
    requires Inv(g, voters, s) && i in s.nodes && Enabled(s, s.nodes[i], a)
    ensures s.nodes[i].WellFormed() && Perform(s.nodes[i], a).Done?
  {
    var g' := PerformSafe(g, voters, i, s, s.nodes[i], a);
  }

  lemma NextBySafe(g: Hist, voters: set<nat>, s: State, s': State, i: nat, a: Action) returns (g': Hist)
    requires Inv(g, voters, s) && NextBy(s, s', i, a)
    ensures Inv(g', voters, s') && Grows(g, g')
  {
    g' := PerformSafe(g, voters, i, s, s.nodes[i], a);
    var o := Perform(s.nodes[i], a);
    AdvancedInv(g, g', voters, s, s', i, o.node, o.out);
  }

  lemma AdvancedInv(g: Hist, g': Hist, voters: set<nat>, s: State, s': State, i: nat, n': Node, out: set<Message>)
    requires LedOk(g) && AcksOk(g, voters) && INVALID_ID !in voters && (forall i :: i in s.nodes <==> i in voters)
    requires AllNodesOk(g, voters, s.nodes) && AllMessagesOk(g, voters, s.sent)
    requires i in s.nodes && Advance(g, g', i)
    requires HistOk(g', voters) && NodeOk(g', voters, i, n') && AllMessagesOk(g', voters, out)
    requires s' == State(s.nodes[i := n'], s.sent + out)
    ensures Inv(g', voters, s')
  {
    NextKeepsNodes(g, g', voters, s.nodes, i, n');
    NextKeepsMessages(g, g', voters, s.sent, out);
  }

  lemma NextSafe(g: Hist, voters: set<nat>, s: State, s': State) returns (g': Hist)
    requires Inv(g, voters, s) && Next(s, s')
    ensures Inv(g', voters, s') && Grows(g, g')
  {
    var i, a :| NextBy(s, s', i, a);
    g' := NextBySafe(g, voters, s, s', i, a);
  }

  const EMPTY_HISTORY := Hist(map[], map[], map[], map[], map[])

  lemma EmptyHistoryOk(voters: set<nat>)
    ensures HistOk(EMPTY_HISTORY, voters)
  {
    assert forall j: nat, t: nat :: Acked(EMPTY_HISTORY, j, t) == 0;
  }

  lemma FreshOk(voters: set<nat>, i: nat, n: Node)
    requires Fresh(n, i, voters) && i in voters
    ensures NodeOk(EMPTY_HISTORY, voters, i, n)
  {
    assert forall j: nat, t: nat :: Acked(EMPTY_HISTORY, j, t) == 0;
  }

  lemma InitSafe(voters: set<nat>, s: State)
    requires Init(s, voters)
    ensures Inv(EMPTY_HISTORY, voters, s)
  {
    EmptyHistoryOk(voters);
    forall i | i in s.nodes ensures NodeOk(EMPTY_HISTORY, voters, i, s.nodes[i]) {
      FreshOk(voters, i, s.nodes[i]);
    }
  }

  /** `Inv` as a value, so that facts about whole sequences of states need not look inside it. */
  ghost function InvFor(voters: set<nat>): (Hist, State) -> bool {
    (g, s) => Inv(g, voters, s)
  }

  lemma InvForIs(g: Hist, voters: set<nat>, s: State)
    ensures InvFor(voters)(g, s) == Inv(g, voters, s)
  {
  }

  /** One history for each of the first states of a run, each growing out of the one before. */
  ghost predicate Explains(gs: seq<Hist>, r: Run, voters: set<nat>) {
    |gs| <= |r| && AllHold(gs, r, InvFor(voters)) && AllGrow(gs)
  }

  ghost predicate AllHold(gs: seq<Hist>, r: Run, inv: (Hist, State) -> bool)
    requires |gs| <= |r|
  {
    forall k :: 0 <= k < |gs| ==> inv(gs[k], r[k])
  }

  ghost predicate AllGrow(gs: seq<Hist>) {
    forall p, q :: 0 <= p <= q < |gs| ==> GrowsAt(gs, p, q)
  }

  ghost predicate GrowsAt(gs: seq<Hist>, p: nat, q: nat)
    requires p <= q < |gs|
  {
    Grows(gs[p], gs[q])
  }

  lemma OneMoreGrow(earlier: seq<Hist>, g: Hist)
    requires AllGrow(earlier) && (earlier != [] ==> Grows(earlier[|earlier| - 1], g))
    ensures AllGrow(earlier + [g])
  {
    var gs := earlier + [g];
    var k := |earlier|;
    forall p, q | 0 <= p <= q < |gs| ensures GrowsAt(gs, p, q) {
      if p == k {
        GrowsRefl(g);
      } else if q == k {
        assert GrowsAt(earlier, p, k - 1);
        GrowsTrans(earlier[p], earlier[k - 1], g);
      } else {
        assert GrowsAt(earlier, p, q);
      }
    }
  }

  lemma OneMoreHolds(gs: seq<Hist>, g: Hist, r: Run, inv: (Hist, State) -> bool)
    requires |gs| < |r| && AllHold(gs, r, inv) && inv(g, r[|gs|])
    ensures AllHold(gs + [g], r, inv)
  {
  }

  lemma NextExplained(g: Hist, voters: set<nat>, s: State, s': State) returns (g': Hist)
    requires InvFor(voters)(g, s) && Next(s, s')
    ensures InvFor(voters)(g', s') && Grows(g, g')
  {
    InvForIs(g, voters, s);
    g' := NextSafe(g, voters, s, s');
    InvForIs(g', voters, s');
  }

  lemma ExtendExplained(earlier: seq<Hist>, r: Run, voters: set<nat>) returns (gs: seq<Hist>)
    requires 0 < |earlier| < |r| && Explains(earlier, r, voters) && StepAt(r, |earlier| - 1)
    ensures |gs| == |earlier| + 1 && Explains(gs, r, voters)
  {
    var n := |earlier|;
    var g := NextExplained(earlier[n - 1], voters, r[n - 1], r[n]);
    OneMoreGrow(earlier, g);
    OneMoreHolds(earlier, g, r, InvFor(voters));
    gs := earlier + [g];
  }

  lemma FirstHolds(s: State, voters: set<nat>)
    requires Init(s, voters)
    ensures InvFor(voters)(EMPTY_HISTORY, s)
  {
    InitSafe(voters, s);
    InvForIs(EMPTY_HISTORY, voters, s);
  }

  lemma FirstExplained(r: Run, voters: set<nat>) returns (gs: seq<Hist>)
    requires r != [] && InvFor(voters)(EMPTY_HISTORY, r[0])
    ensures |gs| == 1 && Explains(gs, r, voters)
  {
    OneMoreGrow([], EMPTY_HISTORY);
    OneMoreHolds([], EMPTY_HISTORY, r, InvFor(voters));
    gs := [] + [EMPTY_HISTORY];
  }

  /** The parts of a run. */
  lemma RunParts(r: Run, voters: set<nat>)
    requires IsRun(r, voters)
    ensures r != [] && InvFor(voters)(EMPTY_HISTORY, r[0])
    ensures forall k :: 0 <= k < |r| - 1 ==> StepAt(r, k)
  {
    FirstHolds(r[0], voters);
  }

  lemma {:induction false} RunExplainedTo(r: Run, voters: set<nat>, n: nat) returns (gs: seq<Hist>)
    requires 1 <= n <= |r| && InvFor(voters)(EMPTY_HISTORY, r[0])
    requires forall k :: 0 <= k < |r| - 1 ==> StepAt(r, k)
    ensures |gs| == n && Explains(gs, r, voters)
  {
    if n == 1 {
      gs := FirstExplained(r, voters);
    } else {
      gs := RunExplainedTo(r, voters, n - 1);
      gs := ExtendExplained(gs, r, voters);
    }
  }

  /** Every run has histories that explain it. */
  lemma RunExplained(r: Run, voters: set<nat>) returns (gs: seq<Hist>)
    requires IsRun(r, voters)
    ensures |gs| == |r| && Explains(gs, r, voters)
  {
    RunParts(r, voters);
    gs := RunExplainedTo(r, voters, |r|);
  }

  /** Some history explains the state at a moment of a run. */
  lemma StateExplained(r: Run, voters: set<nat>, k: nat) returns (g: Hist)
    requires IsRun(r, voters) && k < |r|
    ensures InvFor(voters)(g, r[k])
  {
    var gs := RunExplained(r, voters);
    g := gs[k];
  }
}
