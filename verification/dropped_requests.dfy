/** What becomes of the runs when every vote request of a higher term is dropped, as the text of `step`
    has it: exactly which clusters can still elect a leader. */
module DroppedRequests {
  import opened RaftTypes
  import opened AbstractLog
  import opened ProgressSpec
  import opened Quorum
  import opened NodeSpec
  import opened Cluster
  import opened AsWritten
  import opened Traces

  // ---- runs ----

  ghost predicate DroppedStep(s: State, s': State, i: nat, a: Action) {
    NextBy(s, s', i, a) && (a.Deliver? ==> a.ch.drop)
  }

  ghost predicate DroppedNext(s: State, s': State) {
    exists i, a :: DroppedStep(s, s', i, a)
  }

  ghost predicate DroppedAt(r: Run, k: nat)
    requires k + 1 < |r|
  {
    DroppedNext(r[k], r[k + 1])
  }

  /** A run in which every vote request of a higher term is dropped. */
  ghost predicate IsDroppedRun(r: Run, voters: set<nat>) {
    r != [] && Init(r[0], voters) && forall k :: 0 <= k < |r| - 1 ==> DroppedAt(r, k)
  }

  function PreVoters(s: State): set<nat> { set i | i in s.nodes && s.nodes[i].preVote }

  /** Which clusters can elect: a single voter; and otherwise those with a node that does not pre-vote and
      as many that do as make a majority with it. */
  ghost predicate Electable(voters: set<nat>, on: set<nat>) {
    !Several(voters) || (!(voters <= on) && |on| + 1 >= Majority(|voters|))
  }

  // ---- one node of a cluster that cannot ----

  /** `all` is whether every voter pre-votes. */
  ghost predicate Weak(voters: set<nat>, on: set<nat>, all: bool) {
    if all then Several(voters) else |on| + 1 < Majority(|voters|)
  }

  /** A node without enough votes. Where all pre-vote it never gets beyond term 0; elsewhere only the
      pre-voting nodes vote for others, as the rest voted for themselves in every term they entered. */
  ghost predicate Alone(n: Node, on: set<nat>, all: bool) {
    && n.id != INVALID_ID && n.role != Leader && n.log == Log(0, 0, [], 0, 0)
    && (n.preVote <==> all || n.id in on)
    && if all then n.term == 0 && n.vote == INVALID_ID && n.role != Candidate && Backers(n) <= {n.id}
       else
         && Backers(n) <= on + {n.id}
         && (n.id !in on ==> n.role != PreCandidate && n.vote == if n.term == 0 then INVALID_ID else n.id)
  }

  /** What such nodes have said: requests for terms their senders have reached and answers to them, and
      pre-vote requests and answers of pre-voting nodes. Only pre-voting nodes grant. */
  ghost predicate Backed(nodes: map<nat, Node>, m: Message, on: set<nat>, all: bool) {
    if all then m.mtype == MsgRequestPreVote && m.term == 1
    else
      && m.term >= 1
      && match m.mtype
         case MsgRequestVote => m.from != m.to && m.from in nodes && m.term <= nodes[m.from].term
         case MsgRequestVoteResponse => m.to in nodes && m.term <= nodes[m.to].term && (m.reject || m.from in on)
         case MsgRequestPreVote => m.from != m.to && m.from in on
         case MsgRequestPreVoteResponse => m.to in on && (m.reject || m.from in on)
         case _ => false
  }

  /** What a node may hear of that. */
  ghost predicate Heard(n: Node, m: Message, on: set<nat>, all: bool) {
    if all then m.mtype == MsgRequestPreVote && m.term == 1
    else
      && m.term >= 1 && m.to == n.id
      && match m.mtype
         case MsgRequestVote => m.from != m.to
         case MsgRequestVoteResponse => m.term <= n.term && (m.reject || m.from in on)
         case MsgRequestPreVote => m.from != m.to && m.from in on
         case MsgRequestPreVoteResponse => m.to in on && (m.reject || m.from in on)
         case _ => false
  }

  /** What it may then say. */
  ghost predicate Says(n: Node, a: Action, m: Message, on: set<nat>, all: bool) {
    if all then m.mtype == MsgRequestPreVote && m.term == 1
    else
      && m.term >= 1 && m.from == n.id
      && match m.mtype
         case MsgRequestVote => m.from != m.to && m.term <= n.term
         case MsgRequestVoteResponse =>
           && a.Deliver? && a.m.mtype == MsgRequestVote && m.to == a.m.from && m.term == a.m.term
           && (m.reject || m.from in on)
         case MsgRequestPreVote => m.from != m.to && m.from in on
         case MsgRequestPreVoteResponse =>
           a.Deliver? && a.m.mtype == MsgRequestPreVote && m.to == a.m.from && (m.reject || m.from in on)
         case _ => false
  }

  ghost predicate StaysAlone(n: Node, a: Action, o: Outcome, on: set<nat>, all: bool) {
    o.Done? ==>
      && Alone(o.node, on, all) && o.node.id == n.id && o.node.voters == n.voters && o.node.term >= n.term
      && forall m :: m in o.out ==> Says(o.node, a, m, on, all)
  }

  lemma NotElected(n: Node, on: set<nat>, all: bool)
    requires Weak(n.voters, on, all) && Backers(n) <= if all then {n.id} else on + {n.id}
    ensures !Elected(n)
  {
    if all {
      SeveralMajority(n.voters);
      SubsetSize(Backers(n), {n.id});
    } else {
      SubsetSize(Backers(n), on + {n.id});
      SubsetSize(on + {n.id} - {n.id}, on);
    }
  }

  lemma TimeoutAlone(n: Node, on: set<nat>, all: bool)
    requires n.WellFormed() && Weak(n.voters, on, all) && Alone(n, on, all)
    ensures StaysAlone(n, Timeout, Perform(n, Timeout), on, all)
  {
    NotElected(RegisterVote(if n.preVote then BecomePreCandidate(n) else BecomeCandidate(n), n.id, true), on, all);
  }

  /** A request of a higher term is dropped, and only a pre-voting node grants one of its own term. */
  lemma RequestAlone(n: Node, m: Message, ch: Choice, on: set<nat>, all: bool)
    requires n.WellFormed() && Alone(n, on, all) && Heard(n, m, on, all) && ch.drop
    requires m.mtype in {MsgRequestVote, MsgRequestPreVote}
    ensures StaysAlone(n, Deliver(m, ch), Step(n, m, ch), on, all)
    ensures Step(n, m, ch).Done? && forall resp :: resp in Step(n, m, ch).out ==> resp.reject || n.id in on
  {
  }

  lemma CountAlone(n: Node, m: Message, ch: Choice, on: set<nat>)
    requires n.WellFormed() && Weak(n.voters, on, false) && Alone(n, on, false) && (m.reject || m.from in on)
    ensures StaysAlone(n, Deliver(m, ch), CountVote(n, m, ch), on, false)
  {
    NotElected(RegisterVote(n, m.from, !m.reject), on, false);
  }

  /** An answer is counted, if it is for the role the node is in, or ignored. */
  lemma AnswerDispatched(n: Node, m: Message, ch: Choice)
    requires n.WellFormed() && n.role != Leader && m.mtype in {MsgRequestVoteResponse, MsgRequestPreVoteResponse}
    ensures Dispatch(n, m, ch) == Done(n, {}) || Dispatch(n, m, ch) == CountVote(n, m, ch)
  {
    if n.role in {PreCandidate, Candidate} { assert Dispatch(n, m, ch) == StepCandidate(n, m, ch); }
  }

  /** A refused pre-vote can take a pre-voting node to the term of the refusal. */
  lemma RaisedAlone(n: Node, term: nat, on: set<nat>)
    requires Alone(n, on, false) && n.id in on
    ensures Alone(BecomeFollower(n, term, INVALID_ID), on, false)
  {
  }

  lemma AnswerEntered(n: Node, m: Message, ch: Choice, on: set<nat>)
    requires n.WellFormed() && Alone(n, on, false) && Heard(n, m, on, false)
    requires m.mtype in {MsgRequestVoteResponse, MsgRequestPreVoteResponse}
    ensures match Enter(n, m, ch)
            case Finished(n', out) => n' == n && out == {}
            case Proceed(n') =>
              && Alone(n', on, false) && n'.WellFormed()
              && n'.id == n.id && n'.voters == n.voters && n'.term >= n.term
  {
    if m.term > n.term { RaisedAlone(n, m.term, on); }
  }

  lemma AnswerAlone(n: Node, m: Message, ch: Choice, on: set<nat>)
    requires n.WellFormed() && Weak(n.voters, on, false) && Alone(n, on, false) && Heard(n, m, on, false)
    requires m.mtype in {MsgRequestVoteResponse, MsgRequestPreVoteResponse}
    ensures StaysAlone(n, Deliver(m, ch), Step(n, m, ch), on, false)
  {
    AnswerEntered(n, m, ch, on);
    match Enter(n, m, ch) {
      case Finished(_, _) =>
      case Proceed(n') =>
        AnswerDispatched(n', m, ch);
        CountAlone(n', m, ch, on);
    }
  }

  lemma CrashAlone(n: Node, hs: HardState, on: set<nat>, all: bool)
    requires n.WellFormed() && Alone(n, on, all) && hs.term == n.term && hs.vote == n.vote && hs.commit == 0
    ensures StaysAlone(n, Crash(hs, 0), Restart(n, hs, 0), on, all)
  {
  }

  lemma PerformAlone(n: Node, a: Action, on: set<nat>, all: bool)
    requires n.WellFormed() && Weak(n.voters, on, all) && Alone(n, on, all)
    requires a.Deliver? ==> Heard(n, a.m, on, all) && a.ch.drop
    requires !(a.Propose? || a.Replicating? || a.Beat? || a.Tune?)
    requires a.Apply? ==> n.log.CanApply(a.idx)
    requires a.Crash? ==> a.hs.term == n.term && a.hs.vote == n.vote && a.hs.commit == a.applied == 0
    ensures StaysAlone(n, a, Perform(n, a), on, all)
  {
    match a {
      case Deliver(m, ch) =>
        if m.mtype in {MsgRequestVote, MsgRequestPreVote} {
          RequestAlone(n, m, ch, on, all);
        } else {
          AnswerAlone(n, m, ch, on);
        }
      case Timeout => TimeoutAlone(n, on, all);
      case Crash(hs, _) => CrashAlone(n, hs, on, all);
      case _ =>
    }
  }

  // ---- all nodes of it ----

  ghost predicate AllAlone(s: State, voters: set<nat>, on: set<nat>, all: bool) {
    && (forall i :: i in s.nodes ==> s.nodes[i].id == i && s.nodes[i].voters == voters && Alone(s.nodes[i], on, all))
    && forall m :: m in s.sent ==> Backed(s.nodes, m, on, all)
  }

  lemma BackedLater(nodes: map<nat, Node>, i: nat, n: Node, m: Message, on: set<nat>, all: bool)
    requires Backed(nodes, m, on, all) && i in nodes && n.term >= nodes[i].term
    ensures Backed(nodes[i := n], m, on, all)
  {
  }

  lemma SaidBacked(nodes: map<nat, Node>, i: nat, n: Node, a: Action, m: Message, on: set<nat>, all: bool)
    requires i in nodes && n.id == i && n.term >= nodes[i].term && Says(n, a, m, on, all)
    requires a.Deliver? ==> Backed(nodes, a.m, on, all)
    ensures Backed(nodes[i := n], m, on, all)
  {
  }

  lemma AloneNext(s: State, s': State, voters: set<nat>, i: nat, n: Node, a: Action, out: set<Message>,
                  on: set<nat>, all: bool)
    requires AllAlone(s, voters, on, all) && i in s.nodes && s' == State(s.nodes[i := n], s.sent + out)
    requires StaysAlone(s.nodes[i], a, Done(n, out), on, all) && (a.Deliver? ==> a.m in s.sent)
    ensures AllAlone(s', voters, on, all)
  {
    forall m | m in s'.sent ensures Backed(s'.nodes, m, on, all) {
      if m in s.sent { BackedLater(s.nodes, i, n, m, on, all); } else { SaidBacked(s.nodes, i, n, a, m, on, all); }
    }
  }

  lemma AloneStep(s: State, s': State, voters: set<nat>, i: nat, a: Action, on: set<nat>, all: bool)
    requires AllAlone(s, voters, on, all) && Weak(voters, on, all) && DroppedStep(s, s', i, a)
    ensures AllAlone(s', voters, on, all)
  {
    if a.Deliver? { assert Backed(s.nodes, a.m, on, all); }
    PerformAlone(s.nodes[i], a, on, all);
    var o := Perform(s.nodes[i], a);
    AloneNext(s, s', voters, i, o.node, a, o.out, on, all);
  }

  lemma FreshAlone(n: Node, i: nat, voters: set<nat>, on: set<nat>, all: bool)
    requires Fresh(n, i, voters) && i != INVALID_ID && (n.preVote <==> i in on) && (all ==> i in on)
    ensures Alone(n, on, all)
  {
  }

  lemma AloneStart(s: State, voters: set<nat>, on: set<nat>, all: bool)
    requires Init(s, voters) && on == PreVoters(s) && (all ==> voters <= on)
    ensures AllAlone(s, voters, on, all)
  {
    forall i | i in s.nodes
      ensures s.nodes[i].id == i && s.nodes[i].voters == voters && Alone(s.nodes[i], on, all)
    {
      FreshAlone(s.nodes[i], i, voters, on, all);
    }
  }

  ghost function AllAloneOf(voters: set<nat>, on: set<nat>, all: bool): State -> bool {
    (s: State) => AllAlone(s, voters, on, all)
  }

  lemma KeepsThere(r: Run, voters: set<nat>, on: set<nat>, all: bool, k: nat)
    requires k + 1 < |r| && DroppedAt(r, k) && Weak(voters, on, all)
    ensures KeepsAt(r, k, AllAloneOf(voters, on, all))
  {
    if AllAlone(r[k], voters, on, all) {
      var i, a :| DroppedStep(r[k], r[k + 1], i, a);
      AloneStep(r[k], r[k + 1], voters, i, a, on, all);
    }
  }

  lemma AloneAlways(r: Run, voters: set<nat>, on: set<nat>, all: bool, k: nat)
    requires IsDroppedRun(r, voters) && Weak(voters, on, all) && k < |r|
    requires AllAlone(r[0], voters, on, all)
    ensures AllAlone(r[k], voters, on, all)
  {
    forall q | 0 <= q < |r| - 1 ensures KeepsAt(r, q, AllAloneOf(voters, on, all)) {
      KeepsThere(r, voters, on, all, q);
    }
    KeptAlong(r, AllAloneOf(voters, on, all), k);
  }

  lemma AloneLeft(s: State, voters: set<nat>, on: set<nat>, all: bool, i: nat)
    requires AllAlone(s, voters, on, all) && i in s.nodes
    ensures s.nodes[i].role != Leader && s.nodes[i].log.ents == []
    ensures i !in on ==> s.nodes[i].vote in {INVALID_ID, i}
    ensures all ==> s.nodes[i].term == 0
  {
  }

  /** As the text drops vote requests, a cluster that is not electable never elects: every log stays empty,
      a node that does not pre-vote has no vote but its own, and where all pre-vote no term ever begins. */
  lemma NobodyLeads(r: Run, voters: set<nat>, k: nat, i: nat)
    requires IsDroppedRun(r, voters) && !Electable(voters, PreVoters(r[0])) && k < |r| && i in r[k].nodes
    ensures r[k].nodes[i].role != Leader && r[k].nodes[i].log.ents == []
    ensures i !in PreVoters(r[0]) ==> r[k].nodes[i].vote in {INVALID_ID, i}
    ensures voters <= PreVoters(r[0]) ==> r[k].nodes[i].term == 0
  {
    var on, all := PreVoters(r[0]), voters <= PreVoters(r[0]);
    AloneStart(r[0], voters, on, all);
    AloneAlways(r, voters, on, all, k);
    AloneLeft(r[k], voters, on, all, i);
  }

  lemma HeardBacked(nodes: map<nat, Node>, n: Node, m: Message, on: set<nat>, all: bool)
    requires Backed(nodes, m, on, all) && m.to == n.id && m.mtype in {MsgRequestVote, MsgRequestPreVote}
    ensures Heard(n, m, on, all)
  {
  }

  /** There a node that does not pre-vote grants nothing. */
  lemma NothingGranted(r: Run, voters: set<nat>, k: nat, i: nat, m: Message, ch: Choice)
    requires IsDroppedRun(r, voters) && !Electable(voters, PreVoters(r[0]))
    requires k < |r| && i in r[k].nodes && r[k].nodes[i].WellFormed() && i !in PreVoters(r[0])
    requires m in r[k].sent && m.to == i && m.mtype in {MsgRequestVote, MsgRequestPreVote} && ch.drop
    ensures var o := Step(r[k].nodes[i], m, ch); o.Done? && forall resp :: resp in o.out ==> resp.reject
  {
    var on, all := PreVoters(r[0]), voters <= PreVoters(r[0]);
    AloneStart(r[0], voters, on, all);
    AloneAlways(r, voters, on, all, k);
    assert Backed(r[k].nodes, m, on, all) && Alone(r[k].nodes[i], on, all) && r[k].nodes[i].id == i;
    HeardBacked(r[k].nodes, r[k].nodes[i], m, on, all);
    RequestAlone(r[k].nodes[i], m, ch, on, all);
  }

  // ---- a cluster that can elect: one node's moves ----

  const DROPPED := Choice(true, false, false)

  /** What the candidate asks of a pre-voting node, and that node of the candidate; what either answers. */
  function VoteFor(a: nat, j: nat): Message { Message(MsgRequestVote, j, a, 1) }

  function PreVoteOf(j: nat, a: nat): Message { Message(MsgRequestPreVote, a, j, 1) }

  function Refusal(a: nat, j: nat): Message { Message(MsgRequestPreVoteResponse, j, a, 1, reject := true) }

  function GrantOf(j: nat, a: nat): Message { Message(MsgRequestVoteResponse, a, j, 1) }

  ghost predicate Idle(n: Node, i: nat, voters: set<nat>) {
    && n.WellFormed() && n.id == i != INVALID_ID && n.voters == voters && n.role == Follower && n.term == 0
    && n.vote == INVALID_ID && n.votes == map[] && n.log == Log(0, 0, [], 0, 0)
  }

  /** A candidate of term 1 with the votes of `done` and its own, not yet enough. */
  ghost predicate Standing(n: Node, a: nat, voters: set<nat>, done: set<nat>) {
    && n.WellFormed() && n.id == a != INVALID_ID && n.voters == voters && n.role == Candidate && n.term == 1
    && n.vote == a && n.votes.Keys == Backers(n) == done + {a} && n.log == Log(0, 0, [], 0, 0) && !Elected(n)
  }

  function Asked(n: Node): Node { RegisterVote(BecomePreCandidate(n), n.id, true) }

  function Raised(n: Node): Node { BecomeFollower(Asked(n), 1, INVALID_ID) }

  lemma OneVote(n: Node)
    requires Several(n.voters) && n.votes == map[n.id := true]
    ensures Backers(n) == {n.id} && !Elected(n)
  {
    SeveralMajority(n.voters);
    assert Backers(n) == {n.id};
  }

  lemma StandsUp(n: Node, a: nat, voters: set<nat>)
    requires Idle(n, a, voters) && !n.preVote && Several(voters)
    ensures var c := RegisterVote(BecomeCandidate(n), a, true);
            && Perform(n, Timeout) == Done(c, VoteRequests(c, MsgRequestVote, 1)) && Standing(c, a, voters, {})
  {
    var c := RegisterVote(BecomeCandidate(n), a, true);
    OneVote(c);
    assert c.votes.Keys == {a};
  }

  lemma AsksPreVotes(n: Node, j: nat, voters: set<nat>)
    requires Idle(n, j, voters) && n.preVote && Several(voters)
    ensures Perform(n, Timeout) == Done(Asked(n), VoteRequests(Asked(n), MsgRequestPreVote, 1))
    ensures Asked(n).WellFormed() && Asked(n).id == j
  {
    OneVote(Asked(n));
  }

  lemma RefusesPreVote(n: Node, a: nat, voters: set<nat>, done: set<nat>, j: nat)
    requires Standing(n, a, voters, done) && j != a
    ensures Step(n, PreVoteOf(j, a), DROPPED) == Done(n, {Refusal(a, j)})
  {
  }

  lemma IsRaised(n: Node, j: nat, voters: set<nat>, a: nat)
    requires Idle(n, j, voters)
    ensures Asked(n).WellFormed() && Step(Asked(n), Refusal(a, j), DROPPED) == Done(Raised(n), {})
    ensures Raised(n).WellFormed() && Raised(n).id == j
  {
  }

  lemma VotesFor(n: Node, j: nat, voters: set<nat>, a: nat)
    requires Idle(n, j, voters)
    ensures Raised(n).WellFormed()
    ensures Step(Raised(n), VoteFor(a, j), DROPPED) == Done(Raised(n).(vote := a), {GrantOf(j, a)})
  {
  }

  lemma SaysSo(c: Node)
    requires c.WellFormed() && c.log == Log(0, 0, [], 0, 0)
    ensures Broadcast(BecomeLeader(c)).Done? && Broadcast(BecomeLeader(c)).node.role == Leader
  {
    var n := BecomeLeader(c);
    forall j | j in n.prs && j != n.id ensures SendTo(n, j).Sending? {
      assert n.prs[j].nextIdx == 1 && n.prs[j].state == Probe;
    }
  }

  lemma StillStands(n: Node, a: nat, voters: set<nat>, done: set<nat>, j: nat)
    requires Standing(n, a, voters, done) && j !in done && j != a && !Elected(RegisterVote(n, j, true))
    ensures Standing(RegisterVote(n, j, true), a, voters, done + {j})
  {
    var c := RegisterVote(n, j, true);
    assert Backers(c) == done + {j} + {a};
    assert c.votes.Keys == done + {j} + {a};
  }

  lemma Counts(n: Node, a: nat, voters: set<nat>, done: set<nat>, j: nat)
    requires Standing(n, a, voters, done) && j !in done && j != a
    ensures var o := Step(n, GrantOf(j, a), DROPPED);
            o.Done? && (o.node.role == Leader || Standing(o.node, a, voters, done + {j}))
  {
    var c := RegisterVote(n, j, true);
    assert Step(n, GrantOf(j, a), DROPPED) == CountVote(n, GrantOf(j, a), DROPPED);
    if Elected(c) { SaysSo(c); } else { StillStands(n, a, voters, done, j); }
  }

  // ---- and the cluster's ----

  ghost function DroppedMoves(): Moves { (s: State, s': State) => DroppedNext(s, s') }

  lemma MovesBy(s: State, i: nat, a: Action, n: Node, out: set<Message>) returns (s': State)
    requires i in s.nodes && s.nodes[i].WellFormed() && Enabled(s, s.nodes[i], a)
    requires Perform(s.nodes[i], a) == Done(n, out) && (a.Deliver? ==> a.ch.drop)
    ensures s' == State(s.nodes[i := n], s.sent + out) && DroppedMoves()(s, s')
  {
    s' := State(s.nodes[i := n], s.sent + out);
    assert DroppedStep(s, s', i, a);
  }

  /** Candidate `a` has the votes of `done`; the other pre-voting nodes have not moved yet. */
  ghost predicate Canvass(s: State, voters: set<nat>, on: set<nat>, a: nat, done: set<nat>) {
    && a in s.nodes && a in voters && a !in on && on <= voters && done <= on
    && Standing(s.nodes[a], a, voters, done)
    && (forall j :: j in on - done ==> j in s.nodes && Idle(s.nodes[j], j, voters) && s.nodes[j].preVote)
    && forall j :: j in on ==> VoteFor(a, j) in s.sent
  }

  lemma Refused(s: State, voters: set<nat>, a: nat, done: set<nat>, j: nat) returns (t: seq<State>, s': State)
    requires a in s.nodes && j in s.nodes && j != a && a in voters && Several(voters)
    requires Standing(s.nodes[a], a, voters, done) && Idle(s.nodes[j], j, voters) && s.nodes[j].preVote
    ensures Trace(t, DroppedMoves(), s, s') && s.sent <= s'.sent && Refusal(a, j) in s'.sent
    ensures s'.nodes == s.nodes[j := Asked(s.nodes[j])]
  {
    var n := s.nodes[j];
    AsksPreVotes(n, j, voters);
    var m := MovesBy(s, j, Timeout, Asked(n), VoteRequests(Asked(n), MsgRequestPreVote, 1));
    assert VoteRequest(Asked(n), MsgRequestPreVote, 1, a) == PreVoteOf(j, a);
    RefusesPreVote(s.nodes[a], a, voters, done, j);
    s' := MovesBy(m, a, Deliver(PreVoteOf(j, a), DROPPED), s.nodes[a], {Refusal(a, j)});
    TraceOne(DroppedMoves(), s, m);
    t := TraceMore([s, m], DroppedMoves(), s, m, s');
    assert m.nodes[a := s.nodes[a]] == m.nodes;
  }

  lemma RaisedBy(s: State, voters: set<nat>, a: nat, j: nat, n: Node) returns (s': State)
    requires j in s.nodes && Idle(n, j, voters) && s.nodes[j] == Asked(n) && Refusal(a, j) in s.sent
    ensures s' == State(s.nodes[j := Raised(n)], s.sent + {}) && DroppedMoves()(s, s')
  {
    IsRaised(n, j, voters, a);
    s' := MovesBy(s, j, Deliver(Refusal(a, j), DROPPED), Raised(n), {});
  }

  lemma Asks(s: State, voters: set<nat>, a: nat, j: nat, n: Node) returns (s': State)
    requires j in s.nodes && Idle(n, j, voters) && s.nodes[j] == Raised(n) && VoteFor(a, j) in s.sent
    ensures s' == State(s.nodes[j := Raised(n).(vote := a)], s.sent + {GrantOf(j, a)}) && DroppedMoves()(s, s')
  {
    IsRaised(n, j, voters, a);
    VotesFor(n, j, voters, a);
    s' := MovesBy(s, j, Deliver(VoteFor(a, j), DROPPED), Raised(n).(vote := a), {GrantOf(j, a)});
  }

  lemma Persuaded(s: State, voters: set<nat>, a: nat, j: nat, n: Node) returns (t: seq<State>, s': State)
    requires a in s.nodes && j in s.nodes && j != a && Idle(n, j, voters) && s.nodes[j] == Asked(n)
    requires Refusal(a, j) in s.sent && VoteFor(a, j) in s.sent
    ensures Trace(t, DroppedMoves(), s, s') && s.sent <= s'.sent && GrantOf(j, a) in s'.sent
    ensures s'.nodes == s.nodes[j := Raised(n).(vote := a)]
  {
    var m := RaisedBy(s, voters, a, j, n);
    s' := Asks(m, voters, a, j, n);
    TraceOne(DroppedMoves(), s, m);
    t := TraceMore([s, m], DroppedMoves(), s, m, s');
    assert m.nodes[j := Raised(n).(vote := a)] == s.nodes[j := Raised(n).(vote := a)];
  }

  lemma Turned(s: State, voters: set<nat>, a: nat, done: set<nat>, j: nat) returns (t: seq<State>, s': State)
    requires a in s.nodes && j in s.nodes && j != a && a in voters && Several(voters) && VoteFor(a, j) in s.sent
    requires Standing(s.nodes[a], a, voters, done) && Idle(s.nodes[j], j, voters) && s.nodes[j].preVote
    ensures Trace(t, DroppedMoves(), s, s') && s.sent <= s'.sent && GrantOf(j, a) in s'.sent
    ensures j in s'.nodes && s'.nodes == s.nodes[j := s'.nodes[j]]
  {
    var b, u;
    t, b := Refused(s, voters, a, done, j);
    u, s' := Persuaded(b, voters, a, j, s.nodes[j]);
    t := TraceJoin(t, u, DroppedMoves(), s, b, s');
  }

  lemma Gains(s: State, voters: set<nat>, a: nat, done: set<nat>, j: nat) returns (s': State)
    requires a in s.nodes && Standing(s.nodes[a], a, voters, done) && j !in done && j != a && GrantOf(j, a) in s.sent
    ensures DroppedMoves()(s, s') && s.sent <= s'.sent && a in s'.nodes && s'.nodes == s.nodes[a := s'.nodes[a]]
    ensures s'.nodes[a].role == Leader || Standing(s'.nodes[a], a, voters, done + {j})
  {
    Counts(s.nodes[a], a, voters, done, j);
    var o := Step(s.nodes[a], GrantOf(j, a), DROPPED);
    s' := MovesBy(s, a, Deliver(GrantOf(j, a), DROPPED), o.node, o.out);
  }

  lemma CanvassGoesOn(s: State, s': State, voters: set<nat>, on: set<nat>, a: nat, done: set<nat>, j: nat)
    requires Canvass(s, voters, on, a, done) && j in on - done && s.sent <= s'.sent
    requires a in s'.nodes && j in s'.nodes && s'.nodes == s.nodes[j := s'.nodes[j]][a := s'.nodes[a]]
    requires Standing(s'.nodes[a], a, voters, done + {j})
    ensures Canvass(s', voters, on, a, done + {j})
  {
  }

  /** A pre-voting node that has not moved yet asks, is refused, and so comes to vote. */
  lemma OneMoreVote(s: State, voters: set<nat>, on: set<nat>, a: nat, done: set<nat>, j: nat)
    returns (t: seq<State>, s': State)
    requires Canvass(s, voters, on, a, done) && j in on - done && Several(voters)
    ensures Trace(t, DroppedMoves(), s, s') && a in s'.nodes
    ensures s'.nodes[a].role == Leader || Canvass(s', voters, on, a, done + {j})
  {
    var c;
    t, c := Turned(s, voters, a, done, j);
    s' := Gains(c, voters, a, done, j);
    t := TraceMore(t, DroppedMoves(), s, c, s');
    if s'.nodes[a].role != Leader { CanvassGoesOn(s, s', voters, on, a, done, j); }
  }

  lemma SomeoneLeft(n: Node, voters: set<nat>, on: set<nat>, a: nat, done: set<nat>) returns (j: nat)
    requires Standing(n, a, voters, done) && done <= on && a !in on && |on| + 1 >= Majority(|voters|)
    ensures j in on - done
  {
    assert |on + {a}| == |on| + 1;
    assert on <= done ==> on == done;
    assert !(on <= done);
    j :| j in on && j !in done;
  }

  lemma {:induction false} AllAsked(s: State, voters: set<nat>, on: set<nat>, a: nat, done: set<nat>)
    returns (t: seq<State>, s': State)
    requires Canvass(s, voters, on, a, done) && Several(voters) && |on| + 1 >= Majority(|voters|)
    ensures Trace(t, DroppedMoves(), s, s') && a in s'.nodes && s'.nodes[a].role == Leader
    decreases on - done
  {
    var j := SomeoneLeft(s.nodes[a], voters, on, a, done);
    t, s' := OneMoreVote(s, voters, on, a, done, j);
    if s'.nodes[a].role != Leader {
      var m, u := s', t;
      t, s' := AllAsked(m, voters, on, a, done + {j});
      t := TraceJoin(u, t, DroppedMoves(), s, m, s');
    }
  }

  lemma FreshIdle(n: Node, i: nat, voters: set<nat>)
    requires Fresh(n, i, voters) && i in voters && i != INVALID_ID
    ensures Idle(n, i, voters)
  {
  }

  lemma AllIdle(s: State, voters: set<nat>)
    requires Init(s, voters)
    ensures forall i :: i in voters ==> i in s.nodes && Idle(s.nodes[i], i, voters)
    ensures PreVoters(s) <= voters
  {
    forall i | i in voters ensures i in s.nodes && Idle(s.nodes[i], i, voters) { FreshIdle(s.nodes[i], i, voters); }
  }

  lemma CanvassStarts(s: State, voters: set<nat>, on: set<nat>, a: nat) returns (s': State)
    requires a in voters && a !in on && on <= voters && Several(voters) && on == PreVoters(s)
    requires forall i :: i in voters ==> i in s.nodes && Idle(s.nodes[i], i, voters)
    ensures DroppedMoves()(s, s') && Canvass(s', voters, on, a, {})
  {
    StandsUp(s.nodes[a], a, voters);
    var c := RegisterVote(BecomeCandidate(s.nodes[a]), a, true);
    s' := MovesBy(s, a, Timeout, c, VoteRequests(c, MsgRequestVote, 1));
    AsksAll(c, a, on);
  }

  lemma AsksAll(c: Node, a: nat, on: set<nat>)
    requires c.id == a && a !in on && on <= c.voters && c.log == Log(0, 0, [], 0, 0)
    ensures forall j :: j in on ==> VoteFor(a, j) in VoteRequests(c, MsgRequestVote, 1)
  {
    forall j | j in on ensures VoteFor(a, j) in VoteRequests(c, MsgRequestVote, 1) {
      assert VoteRequest(c, MsgRequestVote, 1, j) == VoteFor(a, j);
    }
  }

  lemma OneVoterLeads(n: Node, i: nat, voters: set<nat>)
    requires Idle(n, i, voters) && voters == {i}
    ensures Perform(n, Timeout).Done? && Perform(n, Timeout).node.role == Leader
  {
    var p, c := Asked(n), RegisterVote(BecomeCandidate(n), i, true);
    var q := RegisterVote(BecomeCandidate(p), i, true);
    assert |voters| == 1;
    assert Backers(p) == {i} && Backers(c) == {i} && Backers(q) == {i};
  }

  lemma LeadsAlone(s: State, voters: set<nat>, i: nat) returns (t: seq<State>, s': State)
    requires i in s.nodes && Idle(s.nodes[i], i, voters) && voters == {i}
    ensures Trace(t, DroppedMoves(), s, s') && i in s'.nodes && s'.nodes[i].role == Leader
  {
    OneVoterLeads(s.nodes[i], i, voters);
    var o := Perform(s.nodes[i], Timeout);
    s' := MovesBy(s, i, Timeout, o.node, o.out);
    TraceOne(DroppedMoves(), s, s');
    t := [s, s'];
  }

  lemma Elects(s: State, voters: set<nat>) returns (t: seq<State>, s': State, a: nat)
    requires voters != {} && Electable(voters, PreVoters(s)) && PreVoters(s) <= voters
    requires forall i :: i in voters ==> i in s.nodes && Idle(s.nodes[i], i, voters)
    ensures Trace(t, DroppedMoves(), s, s') && a in s'.nodes && s'.nodes[a].role == Leader
  {
    if !Several(voters) {
      a :| a in voters;
      assert voters == {a};
      t, s' := LeadsAlone(s, voters, a);
    } else {
      a :| a in voters && a !in PreVoters(s);
      var m := CanvassStarts(s, voters, PreVoters(s), a);
      t, s' := AllAsked(m, voters, PreVoters(s), a, {});
      TraceOne(DroppedMoves(), s, m);
      t := TraceJoin([s, m], t, DroppedMoves(), s, m, s');
    }
  }

  lemma TraceIsDropped(t: seq<State>, voters: set<nat>, s: State, s': State)
    requires Init(s, voters) && Trace(t, DroppedMoves(), s, s')
    ensures IsDroppedRun(t, voters)
  {
    forall k | 0 <= k < |t| - 1 ensures DroppedAt(t, k) { assert MovesAt(t, k, DroppedMoves()); }
  }

  /** A cluster that is electable elects in some run, from any start: a node that does not pre-vote stands,
      and refuses the pre-votes of the others, which brings them to its term without a vote, where they can
      be asked for theirs. */
  lemma SomebodyLeads(s: State, voters: set<nat>) returns (r: Run, a: nat)
    requires Init(s, voters) && Electable(voters, PreVoters(s))
    ensures IsDroppedRun(r, voters) && r[0] == s
    ensures a in r[|r| - 1].nodes && r[|r| - 1].nodes[a].role == Leader
  {
    AllIdle(s, voters);
    var s';
    r, s', a := Elects(s, voters);
    TraceIsDropped(r, voters, s, s');
  }
}
