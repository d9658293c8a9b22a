/** What a message says is true of its sender when it is sent: over every run each append carries a piece
    of its leader's log, as long as fits, and the leader's commit mark, each request the end of the
    candidate's log, and so on. */
module SentMessages {
  import opened RaftTypes
  import opened SizeLimit
  import opened AbstractLog
  import opened ProgressSpec
  import opened NodeSpec
  import opened Replication
  import opened Cluster
  import opened Traces
  import opened History
  import opened HistoryLemmas
  import opened NodeSteps
  import opened StepSafety
  import opened ClusterSafety
  import opened RunProperties
  import opened Proposals

  /** The end of a log, as a vote request names it. */
  ghost predicate NamesEnd(m: Message, es: seq<Entry>) { m.index == |es| && m.logTerm == LastTermOf(es) }

  /** The entries of an append are the leader's from the named place on: as many as fit, and the first in
      any case, and what comes before them is named by index and term. */
  ghost predicate NamesPiece(m: Message, es: seq<Entry>, max: nat) {
    && m.index + |m.entries| <= |es| && m.entries == es[m.index..m.index + |m.entries|]
    && m.logTerm == (if m.index == 0 then 0 else es[m.index - 1].term)
    && (m.index < |es| ==> m.entries != [])
    && (max == NO_LIMIT ==> m.index + |m.entries| == |es|)
    && (max != NO_LIMIT ==> LongestFit(es[m.index..], |m.entries|, max))
  }

  ghost predicate LongestFit(es: seq<Entry>, k: nat, max: nat) {
    k <= |es| && Fits(es, k, max) && forall q :: k < q <= |es| ==> !Fits(es, q, max)
  }

  /** What message `m` says of its sender `n`, right after it was sent. */
  ghost predicate Truthful(n: Node, m: Message) {
    && m.from == n.id && m.to != n.id
    && match m.mtype
       case MsgRequestVote =>
         n.role == Candidate && n.vote == n.id && m.term == n.term && NamesEnd(m, n.log.ents)
       case MsgRequestPreVote =>
         n.role == PreCandidate && m.term == n.term + 1 && NamesEnd(m, n.log.ents)
       case MsgAppend =>
         && n.role == Leader && m.term == n.term && m.commit == n.log.committed
         && NamesPiece(m, n.log.ents, n.maxMsgSize)
       case MsgHeartbeat =>
         && n.role == Leader && m.term == n.term && m.to in n.prs
         && m.commit == (if n.prs[m.to].matched < n.log.committed then n.prs[m.to].matched else n.log.committed)
       case MsgRequestVoteResponse => m.term == n.term && (!m.reject ==> n.vote == m.to)
       case MsgRequestPreVoteResponse => if m.reject then m.term == n.term else m.term >= n.term
       case MsgAppendResponse => m.term == n.term && (m.reject ==> m.rejectHint == |n.log.ents|)
       case MsgHeartbeatResponse => m.term == n.term
       case _ => false
  }

  /** What is known of every node of a run: its log starts at index 1, and a leader's records point into it. */
  ghost predicate Sound(n: Node) {
    && n.WellFormed() && n.log.base == 0 && n.log.baseTerm == 0 && n.log.applied <= n.log.committed
    && (n.role in {Candidate, Leader} ==> n.term >= 1)
    && (n.role == Leader ==> forall j :: j in n.prs ==> 1 <= n.prs[j].nextIdx <= |n.log.ents| + 1)
  }

  ghost predicate AllTruthful(o: Outcome) { o.Done? ==> forall m :: m in o.out ==> Truthful(o.node, m) }

  // ---- sending ----

  lemma RequestsTruthful(c: Node, mtype: MessageType, term: nat)
    requires c.log.base == 0 && c.log.baseTerm == 0
    requires mtype == MsgRequestVote ==> c.role == Candidate && c.vote == c.id && term == c.term
    requires mtype == MsgRequestPreVote ==> c.role == PreCandidate && term == c.term + 1
    requires mtype in {MsgRequestVote, MsgRequestPreVote}
    ensures AllTruthful(Done(c, VoteRequests(c, mtype, term)))
  {
    LastOfLog(c.log);
  }

  lemma EntriesOccupy(es: seq<Entry>, first: nat)
    requires Contiguous(es, first) && first >= 1
    ensures forall k :: 0 <= k < |es| ==> EntrySize(es[k]) > 0
  {
  }

  /** A batch is the longest piece that fits. */
  lemma BatchFits(n: Node, next: nat, es: seq<Entry>)
    requires n.WellFormed() && n.log.base == 0 && 1 <= next <= |n.log.ents| + 1 && Batch(n, next) == Ok(es)
    ensures next - 1 + |es| <= |n.log.ents| && es == n.log.ents[next - 1..next - 1 + |es|]
    ensures next - 1 < |n.log.ents| ==> es != []
    ensures n.maxMsgSize == NO_LIMIT ==> next - 1 + |es| == |n.log.ents|
    ensures n.maxMsgSize != NO_LIMIT ==> LongestFit(n.log.ents[next - 1..], |es|, n.maxMsgSize)
  {
    var rest := n.log.ents[next - 1..];
    forall k | 0 <= k < |rest| ensures EntrySize(rest[k]) > 0 { assert rest[k] == n.log.ents[next - 1 + k]; }
    LimitSizeIsLongestFit(rest, n.maxMsgSize);
    if next <= |n.log.ents| { assert n.log.Range(next, |n.log.ents| + 1) == rest; }
  }

  lemma AppendTruthful(n: Node, to: nat, next: nat, es: seq<Entry>)
    requires n.WellFormed() && n.log.base == 0 && n.log.baseTerm == 0 && n.role == Leader && to != n.id
    requires 1 <= next <= |n.log.ents| + 1 && Batch(n, next) == Ok(es)
    ensures Truthful(n, AppendMessage(n, to, next, es))
  {
    BatchFits(n, next, es);
  }

  lemma SendTruthful(n: Node, to: nat)
    requires n.WellFormed() && n.log.base == 0 && n.log.baseTerm == 0 && n.role == Leader
    requires to in n.prs && to != n.id && 1 <= n.prs[to].nextIdx <= |n.log.ents| + 1
    ensures var s := SendTo(n, to); s.Sending? ==> forall m :: m in s.out ==> m.mtype == MsgAppend && Truthful(n, m)
  {
    match Batch(n, n.prs[to].nextIdx) {
      case Err(_) =>
      case Ok(es) => AppendTruthful(n, to, n.prs[to].nextIdx, es);
    }
  }

  /** What an append says does not depend on the leader's records. */
  lemma AppendStaysTruthful(n: Node, prs: map<nat, Pr>, m: Message)
    requires Truthful(n, m) && m.mtype == MsgAppend
    ensures Truthful(n.(prs := prs), m)
  {
  }

  lemma SendAppendTruthful(n: Node, to: nat)
    requires Sound(n) && n.role == Leader && to != n.id
    ensures AllTruthful(SendAppend(n, to))
  {
    if to in n.prs {
      SendTruthful(n, to);
      var o := SendAppend(n, to);
      if o.Done? {
        forall m | m in o.out ensures Truthful(o.node, m) { AppendStaysTruthful(n, o.node.prs, m); }
      }
    }
  }

  lemma BroadcastTruthful(n: Node)
    requires n.WellFormed() && n.log.base == 0 && n.log.baseTerm == 0 && n.role == Leader
    requires forall j :: j in n.prs && j != n.id ==> 1 <= n.prs[j].nextIdx <= |n.log.ents| + 1
    ensures AllTruthful(Broadcast(n))
  {
    var o := Broadcast(n);
    if o.Done? {
      forall m | m in o.out ensures Truthful(o.node, m) {
        var j :| j in n.prs && j != n.id && m in SendTo(n, j).out;
        SendTruthful(n, j);
        AppendStaysTruthful(n, o.node.prs, m);
      }
    }
  }

  // ---- campaigning ----

  lemma LeadSound(c: Node)
    requires c.WellFormed() && c.log.base == 0 && c.log.baseTerm == 0
    ensures var n := BecomeLeader(c);
            && n.id == c.id && n.WellFormed() && n.log.base == 0 && n.log.baseTerm == 0 && n.role == Leader
            && forall j :: j in n.prs && j != n.id ==> 1 <= n.prs[j].nextIdx <= |n.log.ents| + 1
  {
    AppendedGains(Enthroned(c), [EMPTY_ENTRY]);
    CommitStaysInside(Appended(Enthroned(c), [EMPTY_ENTRY]));
  }

  /** The commit test changes nothing but the mark. */
  lemma CommitStaysInside(n: Node)
    requires n.WellFormed() && n.log.base == 0
    ensures MaybeCommit(n) == n.(log := n.log.(committed := MaybeCommit(n).log.committed))
    ensures n.term >= 1 ==> MaybeCommit(n).WellFormed()
  {
  }

  lemma LeadTruthful(c: Node)
    requires c.WellFormed() && c.log.base == 0 && c.log.baseTerm == 0
    ensures AllTruthful(Broadcast(BecomeLeader(c)))
  {
    LeadSound(c);
    BroadcastTruthful(BecomeLeader(c));
  }

  lemma ElectionTruthful(n: Node)
    requires n.WellFormed() && n.log.base == 0 && n.log.baseTerm == 0
    ensures AllTruthful(CampaignElection(n))
  {
    var c := RegisterVote(BecomeCandidate(n), n.id, true);
    RequestsTruthful(c, MsgRequestVote, c.term);
  }

  lemma CampaignTruthful(n: Node)
    requires n.WellFormed() && n.log.base == 0 && n.log.baseTerm == 0
    ensures AllTruthful(CampaignElection(n)) && AllTruthful(CampaignPreElection(n))
  {
    ElectionTruthful(n);
    var c := RegisterVote(BecomePreCandidate(n), n.id, true);
    ElectionTruthful(c);
    RequestsTruthful(c, MsgRequestPreVote, c.term + 1);
  }

  lemma CountVoteTruthful(n: Node, m: Message, ch: Choice)
    requires n.WellFormed() && n.log.base == 0 && n.log.baseTerm == 0 && n.role in {Candidate, PreCandidate}
    ensures AllTruthful(CountVote(n, m, ch))
  {
    var c := RegisterVote(n, m.from, !m.reject);
    if Elected(c) {
      if c.role == PreCandidate { ElectionTruthful(c); } else { LeadTruthful(c); }
    }
  }

  // ---- answering ----

  /** A message that may be answered: it has a term, and comes from another node. */
  ghost predicate Foreign(n: Node, m: Message) {
    m.mtype != MsgHup && m.term >= 1 && m.to == n.id && m.from != n.id
  }

  lemma VoteAnswerTruthful(n: Node, m: Message)
    requires m.mtype in {MsgRequestVote, MsgRequestPreVote} && Foreign(n, m) && m.term >= n.term
    requires m.mtype == MsgRequestVote ==> m.term == n.term
    ensures AllTruthful(HandleVoteRequest(n, m))
  {
  }

  lemma AppendAnswerTruthful(n: Node, m: Message, ch: Choice)
    requires n.log.base == 0 && Foreign(n, m)
    ensures AllTruthful(HandleAppend(n, m, ch)) && AllTruthful(HandleHeartbeat(n, m))
  {
  }

  lemma CandidateTruthful(n: Node, m: Message, ch: Choice)
    requires n.WellFormed() && n.log.base == 0 && n.log.baseTerm == 0 && n.role in {Candidate, PreCandidate}
    requires Foreign(n, m)
    ensures AllTruthful(StepCandidate(n, m, ch))
  {
    if m.mtype in {MsgAppend, MsgHeartbeat} {
      AppendAnswerTruthful(BecomeFollower(n, m.term, m.from), m, ch);
    } else {
      CountVoteTruthful(n, m, ch);
    }
  }

  lemma DispatchTruthful(n: Node, m: Message, ch: Choice)
    requires n.WellFormed() && n.log.base == 0 && n.log.baseTerm == 0 && Foreign(n, m)
    requires m.mtype in {MsgRequestVote, MsgRequestPreVote} ==> m.term >= n.term
    requires m.mtype == MsgRequestVote ==> m.term == n.term
    ensures AllTruthful(Dispatch(n, m, ch))
  {
    if m.mtype in {MsgRequestVote, MsgRequestPreVote} {
      VoteAnswerTruthful(n, m);
    } else if n.role in {PreCandidate, Candidate} {
      CandidateTruthful(n, m, ch);
    } else {
      AppendAnswerTruthful(n, m, ch);
    }
  }

  lemma StepTruthful(n: Node, m: Message, ch: Choice)
    requires Sound(n) && Foreign(n, m)
    ensures AllTruthful(Step(n, m, ch))
  {
    match Enter(n, m, ch) {
      case Finished(_, _) =>
      case Proceed(n') => DispatchTruthful(n', m, ch);
    }
  }

  lemma BeatTruthful(n: Node, to: nat, context: Bytes)
    requires n.role == Leader && to != n.id
    ensures AllTruthful(SendHeartbeat(n, to, context))
  {
  }

  lemma PerformTruthful(n: Node, a: Action)
    requires Sound(n) && (a.Deliver? ==> Foreign(n, a.m))
    requires a.Replicating? || a.Beat? ==> n.role == Leader && a.to != n.id
    ensures AllTruthful(Perform(n, a))
  {
    match a {
      case Deliver(m, ch) => StepTruthful(n, m, ch);
      case Timeout => CampaignTruthful(n);
      case Replicating(to) => SendAppendTruthful(n, to);
      case Beat(to, context) => BeatTruthful(n, to, context);
      case _ =>
    }
  }

  // ---- runs ----

  lemma SoundIn(g: Hist, voters: set<nat>, s: State, i: nat)
    requires InvFor(voters)(g, s) && i in s.nodes
    ensures Sound(s.nodes[i]) && s.nodes[i].id == i
  {
    InvForIs(g, voters, s);
    var n := s.nodes[i];
    LocalShape(g, voters, i, n);
    TermsBegin(g, voters, i, n);
  }

  lemma TermsBegin(g: Hist, voters: set<nat>, i: nat, n: Node)
    requires HistOk(g, voters) && NodeOk(g, voters, i, n)
    ensures n.role in {Candidate, Leader} ==> n.term >= 1
    ensures n.role == Leader ==> forall j :: j in n.prs ==> 1 <= n.prs[j].nextIdx <= |n.log.ents| + 1
  {
    if n.role == Leader {
      forall j | j in n.prs ensures 1 <= n.prs[j].nextIdx <= |n.log.ents| + 1 { assert PeerOk(g, n, j); }
    }
  }

  /** Sound nodes under their own ids, and messages with a term. */
  ghost predicate Healthy(s: State) {
    && (forall i :: i in s.nodes ==> Sound(s.nodes[i]) && s.nodes[i].id == i)
    && forall m :: m in s.sent ==> m.mtype != MsgHup && m.term >= 1
  }

  lemma HealthyIn(g: Hist, voters: set<nat>, s: State)
    requires InvFor(voters)(g, s)
    ensures Healthy(s)
  {
    forall i | i in s.nodes ensures Sound(s.nodes[i]) && s.nodes[i].id == i { SoundIn(g, voters, s, i); }
    forall m | m in s.sent ensures m.mtype != MsgHup && m.term >= 1 { MessageIn(g, voters, s, m); }
  }

  lemma AlwaysHealthy(r: Run, voters: set<nat>, k: nat)
    requires IsRun(r, voters) && k < |r|
    ensures Healthy(r[k])
  {
    var g := StateExplained(r, voters, k);
    HealthyIn(g, voters, r[k]);
  }

  lemma EndsHealthy(r: Run, voters: set<nat>, s: State)
    requires EndsIn(voters)(r, s)
    ensures Healthy(s)
  {
    EndsIs(r, voters, s);
    AlwaysHealthy(r, voters, |r| - 1);
  }

  lemma EndsVoters(r: Run, voters: set<nat>, s: State, i: nat)
    requires EndsIn(voters)(r, s) && i in s.nodes
    ensures s.nodes[i].voters == voters
  {
    EndsIs(r, voters, s);
    LogStartsAtOne(r, voters, |r| - 1, i);
  }

  /** A step of a run. */
  ghost function Living(): Moves { (s: State, s': State) => Healthy(s) && Healthy(s') && Next(s, s') }

  lemma RunLives(r: Run, voters: set<nat>)
    requires IsRun(r, voters)
    ensures forall k :: 0 <= k < |r| - 1 ==> MovesAt(r, k, Living())
  {
    forall k | 0 <= k < |r| - 1 ensures MovesAt(r, k, Living()) {
      assert StepAt(r, k);
      AlwaysHealthy(r, voters, k);
      AlwaysHealthy(r, voters, k + 1);
    }
  }

  ghost predicate AllApart(s: State) { forall m :: m in s.sent ==> m.from != m.to }

  /** `m` is new in `s'`, and true of its sender there. */
  ghost predicate SentBetween(s: State, s': State, m: Message) {
    && m !in s.sent && m in s'.sent && m.from in s.nodes && m.from in s'.nodes
    && Truthful(s'.nodes[m.from], m)
  }

  lemma NewIsTruthful(s: State, s': State, i: nat, a: Action, m: Message)
    requires NextBy(s, s', i, a) && Sound(s.nodes[i]) && m in s'.sent && m !in s.sent
    requires i in s'.nodes && s'.nodes[i].id == i && (a.Deliver? ==> Foreign(s.nodes[i], a.m))
    ensures SentBetween(s, s', m)
  {
    PerformTruthful(s.nodes[i], a);
  }

  lemma NewBetween(s: State, s': State, m: Message)
    requires Living()(s, s') && AllApart(s) && m in s'.sent && m !in s.sent
    ensures SentBetween(s, s', m)
  {
    var i, a :| NextBy(s, s', i, a);
    NewIsTruthful(s, s', i, a, m);
  }

  lemma StaysApart(s: State, s': State)
    requires Living()(s, s') && AllApart(s)
    ensures AllApart(s')
  {
    forall m | m in s'.sent ensures m.from != m.to {
      if m !in s.sent {
        NewBetween(s, s', m);
        assert s'.nodes[m.from].id == m.from;
      }
    }
  }

  lemma AlwaysApart(r: Run, voters: set<nat>, k: nat)
    requires IsRun(r, voters) && k < |r|
    ensures AllApart(r[k])
  {
    RunLives(r, voters);
    forall s, s' | Living()(s, s') && AllApart(s) ensures AllApart(s') { StaysApart(s, s'); }
    TraceKeeps(r, Living(), AllApart, k);
  }

  /** Over any run every message was sent at some moment, and what it says was true of its sender right
      then: an append carries the leader's commit mark and as much of its log as fits, from the place it
      names by index and term; a request of either kind names the end of the candidate's log; a heartbeat
      the part of the commit mark that its receiver has matched. No node sends to itself. */
  lemma EverySent(r: Run, voters: set<nat>, k: nat, m: Message) returns (p: nat)
    requires IsRun(r, voters) && k < |r| && m in r[k].sent
    ensures p < k && SentBetween(r[p], r[p + 1], m)
  {
    p := FirstSent(r, k, m);
    AlwaysApart(r, voters, p);
    RunLives(r, voters);
    assert MovesAt(r, p, Living());
    NewBetween(r[p], r[p + 1], m);
  }
}
