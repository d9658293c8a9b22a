/** The capacity of every peer's window is what it was when the run began: the assertion of `reset` that
    a window has room for something never fails in a run whose windows start with some. */
module WindowRoom {
  import opened RaftTypes
  import opened AbstractLog
  import opened ProgressSpec
  import opened NodeSpec
  import opened Cluster

  ghost predicate SameRoom(a: map<nat, Pr>, b: map<nat, Pr>) {
    forall j :: j in a ==> j in b && b[j].cap == a[j].cap
  }

  ghost predicate KeepsRoom(n: Node, o: Outcome) { o.Done? ==> SameRoom(n.prs, o.node.prs) }

  lemma AppendRoom(n: Node, es: seq<Entry>)
    requires n.WellFormed()
    ensures SameRoom(n.prs, AppendEntry(n, es).prs)
  {
  }

  lemma LeadRoom(n: Node)
    requires n.WellFormed()
    ensures SameRoom(n.prs, BecomeLeader(n).prs)
  {
    AppendRoom(Enthroned(n), [EMPTY_ENTRY]);
  }

  lemma ElectionRoom(n: Node)
    requires n.WellFormed()
    ensures KeepsRoom(n, CampaignElection(n))
  {
    LeadRoom(RegisterVote(BecomeCandidate(n), n.id, true));
  }

  lemma CampaignRoom(n: Node)
    requires n.WellFormed()
    ensures KeepsRoom(n, CampaignElection(n)) && KeepsRoom(n, CampaignPreElection(n))
  {
    ElectionRoom(n);
    ElectionRoom(RegisterVote(BecomePreCandidate(n), n.id, true));
  }

  lemma SendRoom(n: Node, to: nat)
    requires to in n.prs && SendTo(n, to).Sending?
    ensures SendTo(n, to).pr.cap == n.prs[to].cap
  {
  }

  lemma BroadcastRoom(n: Node)
    ensures KeepsRoom(n, Broadcast(n))
  {
    if Broadcast(n).Done? {
      forall j | j in n.prs ensures j in Broadcast(n).node.prs && Broadcast(n).node.prs[j].cap == n.prs[j].cap {
        if j != n.id { SendRoom(n, j); }
      }
    }
  }

  lemma LeadBroadcastRoom(n: Node)
    requires n.WellFormed()
    ensures KeepsRoom(n, Broadcast(BecomeLeader(n)))
  {
    LeadRoom(n);
    BroadcastRoom(BecomeLeader(n));
  }

  lemma ElectedRoom(c: Node)
    requires c.WellFormed()
    ensures KeepsRoom(c, if c.role == PreCandidate then CampaignElection(c) else Broadcast(BecomeLeader(c)))
  {
    if c.role == PreCandidate { ElectionRoom(c); } else { LeadBroadcastRoom(c); }
  }

  lemma FollowerRoom(n: Node, term: nat, leader: nat)
    ensures SameRoom(n.prs, BecomeFollower(n, term, leader).prs)
  {
  }

  lemma CountVoteRoom(n: Node, m: Message, ch: Choice)
    requires n.WellFormed()
    ensures KeepsRoom(n, CountVote(n, m, ch))
  {
    var c := RegisterVote(n, m.from, !m.reject);
    if Elected(c) {
      ElectedRoom(c);
      assert c.role == Leader || CountVote(n, m, ch) ==
             (if c.role == PreCandidate then CampaignElection(c) else Broadcast(BecomeLeader(c)));
    } else {
      FollowerRoom(c, c.term, INVALID_ID);
    }
  }

  lemma AnswerRoom(n: Node, m: Message, ch: Choice)
    ensures KeepsRoom(n, HandleAppend(n, m, ch)) && KeepsRoom(n, HandleHeartbeat(n, m))
    ensures KeepsRoom(n, HandleVoteRequest(n, m))
  {
  }

  lemma AcknowledgedRoom(n: Node, m: Message)
    requires n.WellFormed()
    ensures KeepsRoom(n, HandleAppendResponse(n, m))
  {
  }

  lemma CandidateRoom(n: Node, m: Message, ch: Choice)
    requires n.WellFormed()
    ensures KeepsRoom(n, StepCandidate(n, m, ch))
  {
    if m.mtype in {MsgAppend, MsgHeartbeat} {
      AnswerRoom(BecomeFollower(n, m.term, m.from), m, ch);
    } else {
      CountVoteRoom(n, m, ch);
    }
  }

  lemma DispatchRoom(n: Node, m: Message, ch: Choice)
    requires n.WellFormed()
    ensures KeepsRoom(n, Dispatch(n, m, ch))
  {
    if m.mtype == MsgHup {
      CampaignRoom(n);
    } else if m.mtype in {MsgRequestVote, MsgRequestPreVote} {
      AnswerRoom(n, m, ch);
    } else if n.role in {PreCandidate, Candidate} {
      CandidateRoom(n, m, ch);
    } else if n.role == Follower {
      AnswerRoom(n, m, ch);
    } else {
      AcknowledgedRoom(n, m);
    }
  }

  lemma StepRoom(n: Node, m: Message, ch: Choice)
    requires n.WellFormed()
    ensures KeepsRoom(n, Step(n, m, ch))
  {
    match Enter(n, m, ch) {
      case Finished(_, _) =>
      case Proceed(n') => DispatchRoom(n', m, ch);
    }
  }

  lemma PerformRoom(n: Node, a: Action)
    requires n.WellFormed()
    ensures KeepsRoom(n, Perform(n, a))
  {
    match a {
      case Deliver(m, ch) => StepRoom(n, m, ch);
      case Timeout => StepRoom(n, HupMessage(n), Choice(false, false, false));
      case Propose(es) => AppendRoom(n, es);
      case Replicating(to) => if to in n.prs && SendTo(n, to).Sending? { SendRoom(n, to); }
      case _ =>
    }
  }

  ghost predicate AllSameRoom(s: State, s': State) {
    forall i :: i in s.nodes ==> i in s'.nodes && SameRoom(s.nodes[i].prs, s'.nodes[i].prs)
  }

  lemma NextRoom(s: State, s': State)
    requires Next(s, s')
    ensures AllSameRoom(s, s')
  {
    var i, a :| NextBy(s, s', i, a);
    PerformRoom(s.nodes[i], a);
  }

  lemma RoomOnwards(a: State, b: State, c: State)
    requires AllSameRoom(a, b) && AllSameRoom(b, c)
    ensures AllSameRoom(a, c)
  {
    forall i | i in a.nodes ensures i in c.nodes && SameRoom(a.nodes[i].prs, c.nodes[i].prs) {
      assert SameRoom(a.nodes[i].prs, b.nodes[i].prs) && SameRoom(b.nodes[i].prs, c.nodes[i].prs);
    }
  }

  ghost predicate RoomAt(r: Run, k: nat)
    requires k + 1 < |r|
  {
    AllSameRoom(r[k], r[k + 1])
  }

  lemma {:induction false} RoomAlong(r: Run, k: nat)
    requires k < |r| && forall q :: 0 <= q < |r| - 1 ==> RoomAt(r, q)
    ensures AllSameRoom(r[0], r[k])
  {
    if k > 0 {
      RoomAlong(r, k - 1);
      assert RoomAt(r, k - 1);
      RoomOnwards(r[0], r[k - 1], r[k]);
    }
  }

  /** No step of any run changes the capacity of a window. */
  lemma CapacityStays(r: Run, voters: set<nat>, k: nat, i: nat, j: nat)
    requires IsRun(r, voters) && k < |r| && i in r[0].nodes && j in r[0].nodes[i].prs
    ensures i in r[k].nodes && j in r[k].nodes[i].prs && r[k].nodes[i].prs[j].cap == r[0].nodes[i].prs[j].cap
  {
    forall q | 0 <= q < |r| - 1 ensures RoomAt(r, q) {
      assert StepAt(r, q);
      NextRoom(r[q], r[q + 1]);
    }
    RoomAlong(r, k);
  }
}
