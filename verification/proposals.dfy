/** What becomes of a proposal: the leader appends it as it was given, stamped with term and place, and
    over every run nothing is in any log but what a leader proposed and the empty entry each began with. */
module Proposals {
  import opened RaftTypes
  import opened AbstractLog
  import opened ProgressSpec
  import opened NodeSpec
  import opened Cluster
  import opened Traces
  import opened RunProperties

  /** Type and payload are what was proposed. */
  predicate Carries(e: Entry, given: Entry) { e.etype == given.etype && e.data == given.data }

  /** `after` is `before` and then the entries of `es`, in order, stamped with `term` and their places. */
  ghost predicate Gains(before: seq<Entry>, after: seq<Entry>, es: seq<Entry>, term: nat, first: nat) {
    && |after| == |before| + |es| && before == after[..|before|]
    && forall k :: 0 <= k < |es| ==>
         var e := after[|before| + k]; Carries(e, es[k]) && e.term == term && e.index == first + k
  }

  // ---- one node ----

  lemma StampedCarries(es: seq<Entry>, term: nat, first: nat, k: nat)
    requires k < |es|
    ensures var e := Stamped(es, term, first)[k]; Carries(e, es[k]) && e.term == term && e.index == first + k
  {
  }

  lemma AppendedGains(n: Node, es: seq<Entry>)
    requires n.WellFormed()
    ensures Gains(n.log.ents, Appended(n, es).log.ents, es, n.term, n.log.LastIndex() + 1)
    ensures Appended(n, es).WellFormed()
  {
    var l, first := Appended(n, es).log, n.log.LastIndex() + 1;
    forall k | 0 <= k < |es| ensures l.ents[|n.log.ents| + k] == Stamped(es, n.term, first)[k] { }
    forall k | 0 <= k < |es|
      ensures var e := l.ents[|n.log.ents| + k]; Carries(e, es[k]) && e.term == n.term && e.index == first + k
    {
      StampedCarries(es, n.term, first, k);
    }
    forall x | 0 <= x < |l.ents| ensures l.ents[x].index == l.base + 1 + x {
      if x >= |n.log.ents| { StampedCarries(es, n.term, first, x - |n.log.ents|); }
    }
  }

  /** An appending leader stays what it is; only its log, its own record and the commit mark move. */
  lemma AppendEntryGains(n: Node, es: seq<Entry>)
    requires n.WellFormed()
    ensures var n' := AppendEntry(n, es);
            && Gains(n.log.ents, n'.log.ents, es, n.term, n.log.LastIndex() + 1)
            && n' == n.(log := n.log.(ents := n'.log.ents, committed := n'.log.committed), prs := n'.prs)
  {
    AppendedGains(n, es);
  }

  lemma BecomeLeaderGains(c: Node)
    requires c.WellFormed()
    ensures var n := BecomeLeader(c);
            && Gains(c.log.ents, n.log.ents, [EMPTY_ENTRY], c.term, c.log.LastIndex() + 1)
            && n.id == c.id && n.role == Leader && n.term == c.term && n.log.base == c.log.base
  {
    AppendEntryGains(Enthroned(c), [EMPTY_ENTRY]);
  }

  // ---- where an entry comes from ----

  /** Entry `e` is new at a leader of its term: the empty entry of a node that just took the lead, or one
      that was just proposed. */
  ghost predicate Fresh(n: Node, n': Node, a: Action, e: Entry) {
    && n'.role == Leader && n'.term == e.term && |n.log.ents| < e.index <= |n'.log.ents|
    && n'.log.ents[e.index - 1] == e
    && if n.role == Leader then
         a.Propose? && e.index - 1 - |n.log.ents| < |a.es| && Carries(e, a.es[e.index - 1 - |n.log.ents|])
       else
         e.index == |n.log.ents| + 1 && e.etype == EntryNormal && e.data == []
  }

  /** What a node holds after a step it held before, was sent, or is fresh. */
  ghost predicate Sourced(n: Node, a: Action, n': Node) {
    forall e :: e in n'.log.ents ==>
      e in n.log.ents || (a.Deliver? && e in a.m.entries) || Fresh(n, n', a, e)
  }

  /** What it sends it holds. */
  ghost predicate SendsHeld(n: Node, out: set<Message>) {
    forall m, e :: m in out && e in m.entries ==> e in n.log.ents
  }

  ghost predicate Honest(n: Node, a: Action, o: Outcome) {
    o.Done? ==> Sourced(n, a, o.node) && SendsHeld(o.node, o.out)
  }

  lemma LeadFresh(n: Node, c: Node, a: Action, e: Entry)
    requires c.WellFormed() && c.log == n.log && n.log.base == 0 && n.role != Leader
    requires e in BecomeLeader(c).log.ents
    ensures e in n.log.ents || Fresh(n, BecomeLeader(c), a, e)
  {
    BecomeLeaderGains(c);
    var es := BecomeLeader(c).log.ents;
    var x :| 0 <= x < |es| && es[x] == e;
    if x < |n.log.ents| {
      assert e == n.log.ents[x];
    } else {
      assert e == es[|c.log.ents| + 0];
    }
  }

  lemma LeadHonest(n: Node, c: Node, a: Action)
    requires c.WellFormed() && c.log == n.log && n.log.base == 0 && n.role != Leader
    ensures Honest(n, a, Done(BecomeLeader(c), {}))
  {
    forall e | e in BecomeLeader(c).log.ents ensures e in n.log.ents || Fresh(n, BecomeLeader(c), a, e) {
      LeadFresh(n, c, a, e);
    }
  }

  /** Same log, and what is sent carries no entries. */
  ghost predicate Bare(n: Node, o: Outcome) {
    o.Done? ==> o.node.log.ents == n.log.ents && forall m :: m in o.out ==> m.entries == []
  }

  lemma BareHonest(n: Node, a: Action, o: Outcome)
    requires Bare(n, o)
    ensures Honest(n, a, o)
  {
  }

  lemma ElectionHonest(n: Node, b: Node, a: Action)
    requires b.WellFormed() && b.log == n.log && n.log.base == 0 && n.role != Leader
    ensures Honest(n, a, CampaignElection(b))
  {
    var c := RegisterVote(BecomeCandidate(b), b.id, true);
    if b.role != Leader {
      if Elected(c) { LeadHonest(n, c, a); } else { BareHonest(n, a, CampaignElection(b)); }
    }
  }

  lemma CampaignHonest(n: Node, a: Action)
    requires n.WellFormed() && n.log.base == 0 && n.role != Leader
    ensures Honest(n, a, CampaignElection(n)) && Honest(n, a, CampaignPreElection(n))
  {
    ElectionHonest(n, n, a);
    var c := RegisterVote(BecomePreCandidate(n), n.id, true);
    if Elected(c) { ElectionHonest(n, c, a); } else { BareHonest(n, a, CampaignPreElection(n)); }
  }

  lemma HupHonest(n: Node, a: Action)
    requires n.WellFormed() && n.log.base == 0
    ensures Honest(n, a, Hup(n))
  {
    if n.role != Leader { CampaignHonest(n, a); }
  }

  lemma BatchHeld(n: Node, next: nat, es: seq<Entry>)
    requires Batch(n, next) == Ok(es)
    ensures forall e :: e in es ==> e in n.log.ents
  {
  }

  lemma SendHeld(n: Node, to: nat)
    requires to in n.prs
    ensures var s := SendTo(n, to); s.Sending? ==> SendsHeld(n, s.out)
  {
    if !n.prs[to].IsPaused() && n.prs[to].nextIdx != 0 {
      match Batch(n, n.prs[to].nextIdx) {
        case Err(_) =>
        case Ok(es) => BatchHeld(n, n.prs[to].nextIdx, es);
      }
    }
  }

  lemma BroadcastHeld(n: Node)
    ensures var o := Broadcast(n); o.Done? ==> o.node.log == n.log && SendsHeld(n, o.out)
  {
    var o := Broadcast(n);
    if o.Done? {
      forall m, e | m in o.out && e in m.entries ensures e in n.log.ents {
        var j :| j in n.prs && j != n.id && m in SendTo(n, j).out;
        SendHeld(n, j);
      }
    }
  }

  lemma LeadTold(n: Node, c: Node, a: Action)
    requires c.WellFormed() && c.log == n.log && n.log.base == 0 && n.role != Leader
    ensures Honest(n, a, Broadcast(BecomeLeader(c)))
  {
    LeadHonest(n, c, a);
    BroadcastHeld(BecomeLeader(c));
    var o := Broadcast(BecomeLeader(c));
    if o.Done? {
      forall e | e in o.node.log.ents ensures e in n.log.ents || Fresh(n, o.node, a, e) {
        assert Fresh(n, BecomeLeader(c), a, e) ==> Fresh(n, o.node, a, e);
      }
    }
  }

  lemma CountVoteHonest(n: Node, b: Node, m: Message, ch: Choice, a: Action)
    requires b.WellFormed() && b.log == n.log && n.log.base == 0 && n.role != Leader
    requires b.role in {PreCandidate, Candidate}
    ensures Honest(n, a, CountVote(b, m, ch))
  {
    var c := RegisterVote(b, m.from, !m.reject);
    if Elected(c) {
      if c.role == PreCandidate { ElectionHonest(n, c, a); } else { LeadTold(n, c, a); }
    } else {
      BareHonest(n, a, CountVote(b, m, ch));
    }
  }

  /** An accepted append leaves entries of the log and of the message only. */
  lemma AppendHonest(n: Node, b: Node, m: Message, ch: Choice, a: Action)
    requires b.log == n.log && a.Deliver? && a.m == m
    ensures Honest(n, a, HandleAppend(b, m, ch))
  {
  }

  lemma CandidateHonest(n: Node, b: Node, m: Message, ch: Choice, a: Action)
    requires b.WellFormed() && b.log == n.log && n.log.base == 0 && n.role != Leader
    requires b.role in {PreCandidate, Candidate} && a.Deliver? && a.m == m
    ensures Honest(n, a, StepCandidate(b, m, ch))
  {
    match m.mtype {
      case MsgAppend => AppendHonest(n, BecomeFollower(b, m.term, m.from), m, ch, a);
      case MsgHeartbeat => BareHonest(n, a, StepCandidate(b, m, ch));
      case MsgRequestVoteResponse => CountVoteHonest(n, b, m, ch, a);
      case MsgRequestPreVoteResponse => CountVoteHonest(n, b, m, ch, a);
      case _ => BareHonest(n, a, StepCandidate(b, m, ch));
    }
  }

  lemma LeaderHonest(n: Node, b: Node, m: Message, a: Action)
    requires b.WellFormed() && b.log == n.log
    ensures Honest(n, a, StepLeader(b, m))
  {
    BareHonest(n, a, StepLeader(b, m));
  }

  lemma VoteHonest(n: Node, b: Node, m: Message, a: Action)
    requires b.log == n.log
    ensures Honest(n, a, HandleVoteRequest(b, m))
  {
    BareHonest(n, a, HandleVoteRequest(b, m));
  }

  lemma DispatchHonest(n: Node, b: Node, m: Message, ch: Choice, a: Action)
    requires b.WellFormed() && b.log == n.log && n.log.base == 0 && (b.role == n.role || b.role == Follower)
    requires a.Deliver? && a.m == m && m.mtype != MsgHup
    ensures Honest(n, a, Dispatch(b, m, ch))
  {
    if m.mtype in {MsgRequestVote, MsgRequestPreVote} {
      VoteHonest(n, b, m, a);
    } else if b.role in {PreCandidate, Candidate} {
      CandidateHonest(n, b, m, ch, a);
    } else if b.role == Leader {
      LeaderHonest(n, b, m, a);
    } else if m.mtype == MsgAppend {
      AppendHonest(n, b, m, ch, a);
    } else {
      BareHonest(n, a, Dispatch(b, m, ch));
    }
  }

  lemma StepHonest(n: Node, m: Message, ch: Choice, a: Action)
    requires n.WellFormed() && n.log.base == 0 && a.Deliver? && a.m == m && m.mtype != MsgHup
    ensures Honest(n, a, Step(n, m, ch))
  {
    match Enter(n, m, ch) {
      case Finished(_, _) => BareHonest(n, a, Step(n, m, ch));
      case Proceed(b) => DispatchHonest(n, b, m, ch, a);
    }
  }

  lemma GainedFresh(n: Node, n': Node, es: seq<Entry>, e: Entry)
    requires n.role == Leader && n'.role == Leader && n'.term == n.term && e in n'.log.ents
    requires Gains(n.log.ents, n'.log.ents, es, n.term, |n.log.ents| + 1)
    ensures e in n.log.ents || Fresh(n, n', Propose(es), e)
  {
    var x :| 0 <= x < |n'.log.ents| && n'.log.ents[x] == e;
    if x < |n.log.ents| {
      assert e == n'.log.ents[..|n.log.ents|][x];
    } else {
      var k := x - |n.log.ents|;
      assert Carries(n'.log.ents[|n.log.ents| + k], es[k]);
    }
  }

  lemma ProposeHonest(n: Node, es: seq<Entry>)
    requires n.WellFormed() && n.log.base == 0 && n.role == Leader
    ensures Honest(n, Propose(es), Done(AppendEntry(n, es), {}))
  {
    AppendEntryGains(n, es);
    var n' := AppendEntry(n, es);
    forall e | e in n'.log.ents ensures e in n.log.ents || Fresh(n, n', Propose(es), e) {
      GainedFresh(n, n', es, e);
    }
  }

  lemma PerformHonest(n: Node, a: Action)
    requires n.WellFormed() && n.log.base == 0 && (a.Deliver? ==> a.m.mtype != MsgHup)
    requires a.Propose? ==> n.role == Leader
    ensures Honest(n, a, Perform(n, a))
  {
    match a {
      case Deliver(m, ch) => StepHonest(n, m, ch, a);
      case Timeout => HupHonest(n, a);
      case Propose(es) => ProposeHonest(n, es);
      case Replicating(to) => if to in n.prs { SendHeld(n, to); }
      case _ => BareHonest(n, a, Perform(n, a));
    }
  }

  // ---- runs ----

  /** At moment `p` node `j` first holds `e`, fresh, by action `a`. */
  ghost predicate FreshAt(r: Run, p: nat, j: nat, a: Action, e: Entry)
    requires p + 1 < |r|
  {
    NextBy(r[p], r[p + 1], j, a) && j in r[p + 1].nodes && Fresh(r[p].nodes[j], r[p + 1].nodes[j], a, e)
  }

  ghost predicate Originates(r: Run, k: nat, e: Entry)
    requires k < |r|
  {
    exists p: nat, j: nat, a: Action :: p < k && FreshAt(r, p, j, a, e)
  }

  ghost predicate AllOriginate(r: Run, k: nat)
    requires k < |r|
  {
    && (forall i, e :: i in r[k].nodes && e in r[k].nodes[i].log.ents ==> Originates(r, k, e))
    && forall m, e :: m in r[k].sent && e in m.entries ==> Originates(r, k, e)
  }

  lemma OriginatesLater(r: Run, k: nat, e: Entry)
    requires k + 1 < |r| && Originates(r, k, e)
    ensures Originates(r, k + 1, e)
  {
    var p: nat, j: nat, a: Action :| p < k && FreshAt(r, p, j, a, e);
    assert p < k + 1 && FreshAt(r, p, j, a, e);
  }

  /** What the acting node holds after the step has an origin. */
  lemma HeldOriginates(r: Run, k: nat, i: nat, a: Action, e: Entry)
    requires k + 1 < |r| && AllOriginate(r, k) && NextBy(r[k], r[k + 1], i, a) && i in r[k + 1].nodes
    requires Sourced(r[k].nodes[i], a, r[k + 1].nodes[i]) && e in r[k + 1].nodes[i].log.ents
    ensures Originates(r, k + 1, e)
  {
    if e in r[k].nodes[i].log.ents || (a.Deliver? && e in a.m.entries) {
      assert Originates(r, k, e);
      OriginatesLater(r, k, e);
    } else {
      assert k < k + 1 && FreshAt(r, k, i, a, e);
    }
  }

  lemma AllOriginateNext(r: Run, k: nat, i: nat, a: Action)
    requires k + 1 < |r| && AllOriginate(r, k) && NextBy(r[k], r[k + 1], i, a) && i in r[k].nodes
    requires r[k].nodes[i].WellFormed() && Honest(r[k].nodes[i], a, Perform(r[k].nodes[i], a))
    ensures AllOriginate(r, k + 1)
  {
    var o, q, s := Perform(r[k].nodes[i], a), k + 1, r[k + 1];
    forall j, e | j in s.nodes && e in s.nodes[j].log.ents ensures Originates(r, q, e) {
      if j == i { HeldOriginates(r, k, i, a, e); } else { OriginatesLater(r, k, e); }
    }
    forall m, e | m in s.sent && e in m.entries ensures Originates(r, q, e) {
      if m in r[k].sent {
        OriginatesLater(r, k, e);
      } else {
        assert m in o.out && e in o.node.log.ents;
        HeldOriginates(r, k, i, a, e);
      }
    }
  }

  lemma StepAllOriginate(r: Run, voters: set<nat>, k: nat)
    requires IsRun(r, voters) && k + 1 < |r| && AllOriginate(r, k)
    ensures AllOriginate(r, k + 1)
  {
    assert StepAt(r, k);
    var i, a :| NextBy(r[k], r[k + 1], i, a);
    LogStartsAtOne(r, voters, k, i);
    if a.Deliver? { NeverHup(r, voters, k, a.m); }
    PerformHonest(r[k].nodes[i], a);
    AllOriginateNext(r, k, i, a);
  }

  lemma {:induction false} AllOriginateAlong(r: Run, voters: set<nat>, k: nat)
    requires IsRun(r, voters) && k < |r|
    ensures AllOriginate(r, k)
  {
    if k == 0 {
      NothingAtFirst(r, voters);
    } else {
      AllOriginateAlong(r, voters, k - 1);
      StepAllOriginate(r, voters, k - 1);
    }
  }

  lemma FreshIsEmpty(n: Node, i: nat, voters: set<nat>)
    requires Cluster.Fresh(n, i, voters)
    ensures n.log.ents == []
  {
  }

  lemma EmptyAtFirst(s: State, voters: set<nat>)
    requires Init(s, voters)
    ensures s.sent == {} && forall i :: i in s.nodes ==> s.nodes[i].log.ents == []
  {
    forall i | i in s.nodes ensures s.nodes[i].log.ents == [] { FreshIsEmpty(s.nodes[i], i, voters); }
  }

  lemma NothingAtFirst(r: Run, voters: set<nat>)
    requires r != [] && Init(r[0], voters)
    ensures AllOriginate(r, 0)
  {
    EmptyAtFirst(r[0], voters);
  }

  /** Nothing is invented: whatever any node holds at a moment of a run was, at an earlier moment, newly
      appended at its place by a leader of its term, and then it is the empty entry with which that node
      began to lead, or has type and payload of an entry it was asked to append. */
  lemma EntriesOriginate(r: Run, voters: set<nat>, k: nat, i: nat, x: nat) returns (p: nat, j: nat, a: Action)
    requires IsRun(r, voters) && k < |r| && i in r[k].nodes && x < |r[k].nodes[i].log.ents|
    ensures p < k && FreshAt(r, p, j, a, r[k].nodes[i].log.ents[x])
    ensures r[k].nodes[i].log.ents[x].index == x + 1
  {
    AllOriginateAlong(r, voters, k);
    LogStartsAtOne(r, voters, k, i);
    var e := r[k].nodes[i].log.ents[x];
    assert e in r[k].nodes[i].log.ents;
    assert Originates(r, k, e);
    p, j, a :| p < k && FreshAt(r, p, j, a, e);
  }

  ghost predicate Proposed(s: State, s': State, i: nat, es: seq<Entry>) {
    && i in s.nodes && i in s'.nodes && s'.sent == s.sent
    && var n, n' := s.nodes[i], s'.nodes[i];
       && Gains(n.log.ents, n'.log.ents, es, n.term, |n.log.ents| + 1)
       && n'.role == Leader && n'.term == n.term && n'.log.committed >= n.log.committed
  }

  lemma ProposedStep(s: State, s': State, i: nat, es: seq<Entry>)
    requires NextBy(s, s', i, Propose(es)) && s.nodes[i].log.base == 0
    ensures Proposed(s, s', i, es)
  {
    AppendEntryGains(s.nodes[i], es);
  }

  /** Nothing is lost: a leader that is asked to append holds, right behind its old log and in the given
      order, one entry of its term for each, with the given types and payloads. */
  lemma ProposalAppended(r: Run, voters: set<nat>, k: nat, i: nat, es: seq<Entry>)
    requires IsRun(r, voters) && k + 1 < |r| && NextBy(r[k], r[k + 1], i, Propose(es))
    ensures Proposed(r[k], r[k + 1], i, es)
  {
    LogStartsAtOne(r, voters, k, i);
    ProposedStep(r[k], r[k + 1], i, es);
  }
}
