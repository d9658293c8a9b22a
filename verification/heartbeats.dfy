/** The round of a heartbeat over runs, which a read request relies on: a leader can have its context
    brought back by any node that is not ahead of it, and no context comes back that it did not send. */
module Heartbeats {
  import opened RaftTypes
  import opened AbstractLog
  import opened ProgressSpec
  import opened NodeSpec
  import opened Cluster
  import opened Traces
  import opened Theorems
  import opened RunProperties
  import opened SentMessages
  import opened Deliveries

  // ---- every context that comes back was sent ----

  /** Heartbeats are sent when asked for only, and answered when received only, with their context. */
  ghost predicate BeatFor(n: Node, a: Action, m: Message) {
    && (m.mtype == MsgHeartbeat ==> a == Beat(m.to, m.context))
    && (m.mtype == MsgHeartbeatResponse ==> a.Deliver? && Answers(m, a.m) && m.from == n.id)
  }

  predicate Answers(m: Message, b: Message) {
    b.mtype == MsgHeartbeat && b.from == m.to && b.term == m.term && b.context == m.context
  }

  ghost predicate BeatsFor(n: Node, a: Action, o: Outcome) { o.Done? ==> forall m :: m in o.out ==> BeatFor(n, a, m) }

  lemma BroadcastBeats(n: Node, b: Node, a: Action)
    ensures BeatsFor(n, a, Broadcast(b))
  {
  }

  lemma ElectionBeats(n: Node, b: Node, a: Action)
    requires b.WellFormed()
    ensures BeatsFor(n, a, CampaignElection(b))
  {
  }

  lemma CountVoteBeats(n: Node, b: Node, m: Message, ch: Choice, a: Action)
    requires b.WellFormed() && b.role in {PreCandidate, Candidate}
    ensures BeatsFor(n, a, CountVote(b, m, ch))
  {
    var c := RegisterVote(b, m.from, !m.reject);
    if Elected(c) {
      if c.role == PreCandidate { ElectionBeats(n, c, a); } else { BroadcastBeats(n, BecomeLeader(c), a); }
    }
  }

  lemma HandlerBeats(n: Node, b: Node, m: Message, ch: Choice)
    requires b.id == n.id && (m.mtype == MsgHeartbeat ==> m.term == b.term)
    ensures BeatsFor(n, Deliver(m, ch), HandleAppend(b, m, ch))
    ensures m.mtype == MsgHeartbeat ==> BeatsFor(n, Deliver(m, ch), HandleHeartbeat(b, m))
  {
  }

  lemma DispatchBeats(n: Node, b: Node, m: Message, ch: Choice)
    requires b.WellFormed() && b.id == n.id && (m.mtype == MsgHeartbeat ==> m.term == b.term)
    ensures BeatsFor(n, Deliver(m, ch), Dispatch(b, m, ch))
  {
    if b.role in {PreCandidate, Candidate} && m.mtype in {MsgRequestVoteResponse, MsgRequestPreVoteResponse} {
      CountVoteBeats(n, b, m, ch, Deliver(m, ch));
    } else if b.role in {PreCandidate, Candidate} {
      HandlerBeats(n, BecomeFollower(b, m.term, m.from), m, ch);
    } else {
      HandlerBeats(n, b, m, ch);
    }
  }

  lemma StepBeats(n: Node, m: Message, ch: Choice)
    requires n.WellFormed() && (m.mtype == MsgHeartbeat ==> m.term >= 1)
    ensures BeatsFor(n, Deliver(m, ch), Step(n, m, ch))
  {
    match Enter(n, m, ch) {
      case Finished(_, _) =>
      case Proceed(b) => DispatchBeats(n, b, m, ch);
    }
  }

  lemma PerformBeats(n: Node, a: Action)
    requires n.WellFormed() && (a.Deliver? ==> a.m.mtype != MsgHup && a.m.term >= 1)
    ensures BeatsFor(n, a, Perform(n, a))
  {
    match a {
      case Deliver(m, ch) => StepBeats(n, m, ch);
      case _ =>
    }
  }

  /** Node `i` is asked for a heartbeat. */
  ghost predicate Beaten(s: State, s': State, i: nat, to: nat, context: Bytes) {
    NextBy(s, s', i, Beat(to, context))
  }

  /** The message comes out of that step. */
  ghost predicate CameOut(n: Node, a: Action, m: Message) {
    n.WellFormed() && var o := Perform(n, a); o.Done? && o.node.id == n.id && m in o.out
  }

  lemma CameFor(n: Node, a: Action, m: Message)
    requires Sound(n) && CameOut(n, a, m) && (a.Deliver? ==> Foreign(n, a.m))
    requires a.Replicating? || a.Beat? ==> n.role == Leader && a.to != n.id
    ensures BeatFor(n, a, m) && m.from == n.id
  {
    PerformBeats(n, a);
    PerformTruthful(n, a);
  }

  lemma StepOf(s: State, s': State) returns (i: nat, a: Action)
    requires Next(s, s')
    ensures NextBy(s, s', i, a)
  {
    i, a :| NextBy(s, s', i, a);
  }

  lemma NewCameOut(s: State, s': State, i: nat, a: Action, m: Message)
    requires NextBy(s, s', i, a) && m in s'.sent && m !in s.sent && i in s'.nodes && s'.nodes[i].id == i
    requires s.nodes[i].id == i
    ensures CameOut(s.nodes[i], a, m)
  {
  }

  lemma TakesForeign(s: State, n: Node, a: Action)
    requires AllApart(s) && Enabled(s, n, a) && (forall m :: m in s.sent ==> m.mtype != MsgHup && m.term >= 1)
    ensures a.Deliver? ==> Foreign(n, a.m) && a.m in s.sent
    ensures a.Replicating? || a.Beat? ==> n.role == Leader && a.to != n.id
  {
  }

  /** The step a heartbeat or the answer to one was sent in. */
  lemma SentFor(s: State, s': State, m: Message)
    requires Living()(s, s') && SentBetween(s, s', m) && AllApart(s)
    ensures m.mtype == MsgHeartbeat ==> Beaten(s, s', m.from, m.to, m.context)
    ensures m.mtype == MsgHeartbeatResponse ==> exists b :: b in s.sent && b.to == m.from && Answers(m, b)
  {
    var i, a := StepOf(s, s');
    NewCameOut(s, s', i, a, m);
    TakesForeign(s, s.nodes[i], a);
    CameFor(s.nodes[i], a, m);
    BeatIn(s, s', i, a, m);
  }

  lemma BeatIn(s: State, s': State, i: nat, a: Action, m: Message)
    requires NextBy(s, s', i, a) && s.nodes[i].id == i && BeatFor(s.nodes[i], a, m) && m.from == i
    requires a.Deliver? ==> a.m in s.sent && a.m.to == i
    ensures m.mtype == MsgHeartbeat ==> Beaten(s, s', m.from, m.to, m.context)
    ensures m.mtype == MsgHeartbeatResponse ==> exists b :: b in s.sent && b.to == m.from && Answers(m, b)
  {
  }

  /** A heartbeat was asked for, of its sender, for its receiver and with its context. */
  lemma HeartbeatAsked(r: Run, voters: set<nat>, k: nat, m: Message) returns (p: nat)
    requires IsRun(r, voters) && k < |r| && m in r[k].sent && m.mtype == MsgHeartbeat
    ensures p < k && Beaten(r[p], r[p + 1], m.from, m.to, m.context)
  {
    p := EverySent(r, voters, k, m);
    RunLives(r, voters);
    assert MovesAt(r, p, Living());
    AlwaysApart(r, voters, p);
    SentFor(r[p], r[p + 1], m);
  }

  lemma ResponseAnswers(r: Run, voters: set<nat>, k: nat, m: Message) returns (p: nat, b: Message)
    requires IsRun(r, voters) && k < |r| && m in r[k].sent && m.mtype == MsgHeartbeatResponse
    ensures p < k && b in r[p].sent && b.to == m.from && Answers(m, b)
  {
    p := EverySent(r, voters, k, m);
    RunLives(r, voters);
    assert MovesAt(r, p, Living());
    AlwaysApart(r, voters, p);
    SentFor(r[p], r[p + 1], m);
    b :| b in r[p].sent && b.to == m.from && Answers(m, b);
  }

  /** No context comes back that was not sent: the receiver of a heartbeat response was asked, as the leader
      of the response's term, for a heartbeat to its sender with its context. */
  lemma ResponseAsked(r: Run, voters: set<nat>, k: nat, m: Message) returns (p: nat)
    requires IsRun(r, voters) && k < |r| && m in r[k].sent && m.mtype == MsgHeartbeatResponse
    ensures p < k && Beaten(r[p], r[p + 1], m.to, m.from, m.context) && LedAt(r, p, m.to, m.term)
  {
    var q, b := ResponseAnswers(r, voters, k, m);
    p := EverySent(r, voters, q, b);
    RunLives(r, voters);
    assert MovesAt(r, p, Living());
    AlwaysApart(r, voters, p);
    SentFor(r[p], r[p + 1], b);
    BeatLeads(r[p], r[p + 1], b);
  }

  lemma BeatLeads(s: State, s': State, b: Message)
    requires Living()(s, s') && SentBetween(s, s', b) && Beaten(s, s', b.from, b.to, b.context)
    requires b.mtype == MsgHeartbeat
    ensures b.from in s.nodes && s.nodes[b.from].role == Leader && s.nodes[b.from].term == b.term
  {
  }

  // ---- every context can come back ----

  ghost predicate MayHear(s: State, i: nat, to: nat) {
    && i in s.nodes && to in s.nodes && to != i && s.nodes[i].role == Leader && to in s.nodes[i].prs
    && s.nodes[to].term <= s.nodes[i].term
  }

  /** Only the receiver moved: it follows, has its log and the commit mark its leader vouches for, if that is
      news, and the context is on its way back. */
  ghost predicate Confirmed(s: State, s': State, i: nat, to: nat, context: Bytes) {
    && MayHear(s, i, to) && to in s'.nodes && s'.nodes == s.nodes[to := s'.nodes[to]] && s.sent <= s'.sent
    && var l, n, n' := s.nodes[i], s.nodes[to], s'.nodes[to];
       var mark := Min(l.prs[to].matched, l.log.committed);
       && n'.role == Follower && n'.term == l.term
       && n'.log == n.log.(committed := if mark > n.log.committed then mark else n.log.committed)
       && Message(MsgHeartbeatResponse, i, to, l.term, context := context) in s'.sent
  }

  lemma BeatGoesOut(s: State, i: nat, to: nat, context: Bytes) returns (s': State, m: Message)
    requires Healthy(s) && MayHear(s, i, to)
    ensures Next(s, s') && s'.nodes == s.nodes && s.sent <= s'.sent && m in s'.sent
    ensures m.mtype == MsgHeartbeat && m.to == to && m.from == i && m.term == s.nodes[i].term
    ensures m.context == context && m.commit == Min(s.nodes[i].prs[to].matched, s.nodes[i].log.committed)
  {
    var o := SendHeartbeat(s.nodes[i], to, context);
    s' := State(s.nodes[i := o.node], s.sent + o.out);
    m :| o.out == {m};
    assert NextBy(s, s', i, Beat(to, context));
  }

  lemma TakenConfirms(s: State, a: State, i: nat, to: nat, m: Message) returns (s': State)
    requires Healthy(s) && MayHear(s, i, to) && a.nodes == s.nodes && s.sent <= a.sent && m in a.sent && m.to == to
    requires m.mtype == MsgHeartbeat && m.from == i && m.term == s.nodes[i].term
    requires m.commit == Min(s.nodes[i].prs[to].matched, s.nodes[i].log.committed)
    requires HeartbeatTaken(s.nodes[to], m, Step(s.nodes[to], m, AS_MEANT))
    ensures Next(a, s') && Confirmed(s, s', i, to, m.context)
  {
    var o := Step(s.nodes[to], m, AS_MEANT);
    s' := State(a.nodes[to := o.node], a.sent + o.out);
    assert NextBy(a, s', to, Deliver(m, AS_MEANT));
  }

  lemma HeardIn(r: Run, voters: set<nat>, a: State, to: nat, m: Message)
    requires EndsIn(voters)(r, a) && Arrives(a, to, m) && m.mtype == MsgHeartbeat && m.term >= a.nodes[to].term
    ensures a.nodes[to].WellFormed() && HeartbeatTaken(a.nodes[to], m, Step(a.nodes[to], m, AS_MEANT))
  {
    EndsIs(r, voters, a);
    HeartbeatDelivered(r, voters, |r| - 1, to, m, AS_MEANT);
  }

  lemma Confirms(r: Run, voters: set<nat>, s: State, i: nat, to: nat, context: Bytes) returns (r': Run, s': State)
    requires EndsIn(voters)(r, s) && MayHear(s, i, to)
    ensures EndsIn(voters)(r', s') && r <= r' && Confirmed(s, s', i, to, context)
  {
    EndsHealthy(r, voters, s);
    var a, m := BeatGoesOut(s, i, to, context);
    var p := EndsMore(r, voters, s, a);
    HeardIn(p, voters, a, to, m);
    s' := TakenConfirms(s, a, i, to, m);
    r' := EndsMore(p, voters, a, s');
  }

  /** Every context can come back: from every reachable state, whatever a leader's heartbeat carries, a node
      that is not ahead of the leader in term can answer it with the same, and follow the leader with the
      part of its commit mark that the node is known to hold. */
  lemma ReachableConfirms(r: Run, voters: set<nat>, i: nat, to: nat, context: Bytes) returns (r': Run)
    requires IsRun(r, voters) && MayHear(r[|r| - 1], i, to)
    ensures IsRun(r', voters) && r <= r' && Confirmed(r[|r| - 1], r'[|r'| - 1], i, to, context)
  {
    EndsIs(r, voters, r[|r| - 1]);
    var s';
    r', s' := Confirms(r, voters, r[|r| - 1], i, to, context);
    EndsIs(r', voters, s');
  }
}
