/** The rounds of probing as steps of a cluster: in every reachable state a leader and a peer it probes
    can by themselves bring the peer's log up to the leader's. */
module ReplicationRuns {
  import opened RaftTypes
  import opened AbstractLog
  import opened ProgressSpec
  import opened NodeSpec
  import opened LogProperties
  import opened Replication
  import opened Cluster
  import opened Traces
  import opened RunProperties

  function PairAt(s: State, i: nat, j: nat): Pair
    requires i in s.nodes && j in s.nodes
  {
    Pair(s.nodes[i], s.nodes[j])
  }

  /** One step of leader `i` and the peer `j` it probes: the leader resumes or sends, or one of them is
      delivered what the other said. */
  ghost predicate RoundStep(s: State, s': State, i: nat, j: nat) {
    || NextBy(s, s', i, Tune(j, TuneResume))
    || NextBy(s, s', i, Replicating(j))
    || (exists m: Message :: m.mtype == MsgAppend && m.from == i && NextBy(s, s', j, Deliver(m, AS_MEANT)))
    || (exists m: Message :: m.mtype == MsgAppendResponse && m.from == j && NextBy(s, s', i, Deliver(m, AS_MEANT)))
  }

  ghost function RoundMoves(i: nat, j: nat): Moves {
    (s: State, s': State) => RoundStep(s, s', i, j)
  }

  // ---- one round ----

  lemma SentAppend(n: Node, to: nat, n': Node, m: Message)
    requires SendAppend(n, to) == Done(n', {m})
    ensures m.mtype == MsgAppend && m.from == n.id && m.term == n.term && n'.id == n.id
  {
    assert m in SendAppend(n, to).out;
  }

  lemma AnsweredBy(f: Node, m: Message, f': Node, resp: Message)
    requires m.mtype == MsgAppend && m.term >= 1 && Hears(f, m.term) && Step(f, m, AS_MEANT) == Done(f', {resp})
    ensures resp.mtype == MsgAppendResponse && resp.from == f.id
  {
    HearsAppend(f, m);
    assert resp in HandleAppend(Heard(f, m.term, m.from), m, AS_MEANT).out;
  }

  /** The two nodes under their own ids, the one linked to the other. */
  ghost predicate Ready(s: State, i: nat, j: nat) {
    && i in s.nodes && j in s.nodes && i != j && s.nodes[i].id == i && s.nodes[j].id == j
    && Linked(PairAt(s, i, j))
  }

  /** Nothing but the two nodes changed, and not the leader's term, entries and records of others. */
  ghost predicate Moved(s: State, s': State, i: nat, j: nat) {
    && i in s.nodes && j in s.nodes && i in s'.nodes && j in s'.nodes
    && s'.nodes == s.nodes[i := s'.nodes[i]][j := s'.nodes[j]]
    && s'.nodes[i].log.ents == s.nodes[i].log.ents && s'.nodes[i].term == s.nodes[i].term
    && j in s'.nodes[i].prs && s'.nodes[i].prs == s.nodes[i].prs[j := s'.nodes[i].prs[j]]
    && s'.nodes[j].log.base == s.nodes[j].log.base
  }

  lemma MovedOn(a: State, b: State, c: State, i: nat, j: nat)
    requires Moved(a, b, i, j) && Moved(b, c, i, j)
    ensures Moved(a, c, i, j)
  {
  }

  lemma SendStep(s: State, i: nat, j: nat, n: Node, m: Message) returns (s': State)
    requires i in s.nodes && s.nodes[i].id == i && s.nodes[i].WellFormed() && s.nodes[i].role == Leader && i != j
    requires SendAppend(s.nodes[i], j) == Done(n, {m})
    ensures s' == State(s.nodes[i := n], s.sent + {m}) && RoundMoves(i, j)(s, s')
  {
    s' := State(s.nodes[i := n], s.sent + {m});
    assert NextBy(s, s', i, Replicating(j));
  }

  lemma AppendStep(s: State, i: nat, j: nat, m: Message, f: Node, out: set<Message>) returns (s': State)
    requires j in s.nodes && s.nodes[j].id == j && s.nodes[j].WellFormed()
    requires m in s.sent && m.to == j && m.from == i && m.mtype == MsgAppend
    requires Step(s.nodes[j], m, AS_MEANT) == Done(f, out)
    ensures s' == State(s.nodes[j := f], s.sent + out) && RoundMoves(i, j)(s, s')
  {
    s' := State(s.nodes[j := f], s.sent + out);
    assert NextBy(s, s', j, Deliver(m, AS_MEANT));
  }

  lemma AnswerStep(s: State, i: nat, j: nat, m: Message, n: Node, out: set<Message>) returns (s': State)
    requires i in s.nodes && s.nodes[i].id == i && s.nodes[i].WellFormed()
    requires m in s.sent && m.to == i && m.from == j && m.mtype == MsgAppendResponse
    requires Step(s.nodes[i], m, AS_MEANT) == Done(n, out)
    ensures s' == State(s.nodes[i := n], s.sent + out) && RoundMoves(i, j)(s, s')
  {
    s' := State(s.nodes[i := n], s.sent + out);
    assert NextBy(s, s', i, Deliver(m, AS_MEANT));
  }

  lemma ResumeStep(s: State, i: nat, j: nat) returns (s': State)
    requires Ready(s, i, j)
    ensures s' == State(s.nodes[i := Resumed(PairAt(s, i, j)).leader], s.sent + {}) && RoundMoves(i, j)(s, s')
  {
    s' := State(s.nodes[i := Resumed(PairAt(s, i, j)).leader], s.sent + {});
    assert NextBy(s, s', i, Tune(j, TuneResume));
  }

  lemma ThreeSteps(s: State, i: nat, j: nat, n: Node, req: Message, f: Node, resp: Message, l: Node)
    returns (t: seq<State>, s': State)
    requires i in s.nodes && j in s.nodes && i != j && s.nodes[i].id == i && s.nodes[j].id == j
    requires s.nodes[i].WellFormed() && s.nodes[i].role == Leader && SendAppend(s.nodes[i], j) == Done(n, {req})
    requires s.nodes[j].WellFormed() && req.to == j && req.from == i && req.mtype == MsgAppend
    requires Step(s.nodes[j], req, AS_MEANT) == Done(f, {resp})
    requires n.WellFormed() && n.id == i && resp.to == i && resp.from == j && resp.mtype == MsgAppendResponse
    requires Step(n, resp, AS_MEANT) == Done(l, {})
    ensures Trace(t, RoundMoves(i, j), s, s') && |t| == 4 && s.sent <= s'.sent
    ensures s'.nodes == s.nodes[i := l][j := f]
  {
    var a := SendStep(s, i, j, n, req);
    var b := AppendStep(a, i, j, req, f, {resp});
    s' := AnswerStep(b, i, j, resp, l, {});
    TraceThree(RoundMoves(i, j), s, a, b, s');
    t := [s, a, b, s'];
  }

  /** An exchange is three steps of the cluster. */
  lemma ExchangeTrace(s: State, i: nat, j: nat, q: Pair) returns (t: seq<State>, s': State)
    requires Ready(s, i, j) && Exchange(PairAt(s, i, j), q)
    ensures Trace(t, RoundMoves(i, j), s, s') && |t| == 4 && s.sent <= s'.sent
    ensures s'.nodes == s.nodes[i := q.leader][j := q.follower]
  {
    var p := PairAt(s, i, j);
    var n: Node, req: Message, resp: Message :| ExchangeBy(p, q, n, req, resp);
    SentAppend(p.leader, j, n, req);
    AnsweredBy(p.follower, req, q.follower, resp);
    t, s' := ThreeSteps(s, i, j, n, req, q.follower, resp, q.leader);
  }

  lemma RoundTrace(s: State, i: nat, j: nat, q: Pair) returns (t: seq<State>, s': State)
    requires Ready(s, i, j) && Round(PairAt(s, i, j), q)
    ensures Trace(t, RoundMoves(i, j), s, s') && |t| == 5 && s'.nodes == s.nodes[i := q.leader][j := q.follower]
  {
    var m := ResumeStep(s, i, j);
    TraceOne(RoundMoves(i, j), s, m);
    ResumedLinked(PairAt(s, i, j));
    assert PairAt(m, i, j) == Resumed(PairAt(s, i, j));
    var u;
    u, s' := ExchangeTrace(m, i, j, q);
    t := TraceJoin([s, m], u, RoundMoves(i, j), s, m, s');
    assert s.nodes[i := m.nodes[i]][i := q.leader] == s.nodes[i := q.leader];
  }

  lemma Arrives(s: State, s': State, i: nat, j: nat, q: Pair)
    requires Ready(s, i, j) && s'.nodes == s.nodes[i := q.leader][j := q.follower]
    requires Linked(q) && q.leader.id == i && q.follower.id == j && q.leader.log.ents == s.nodes[i].log.ents
    requires q.leader.prs == s.nodes[i].prs[j := q.Peer()]
    requires q.leader.term == s.nodes[i].term && q.follower.log.base == s.nodes[j].log.base
    ensures Ready(s', i, j) && Moved(s, s', i, j) && PairAt(s', i, j) == q
  {
  }

  lemma ProgressTrace(s: State, i: nat, j: nat) returns (t: seq<State>, s': State)
    requires Ready(s, i, j) && Gap(PairAt(s, i, j)) > 0
    ensures Trace(t, RoundMoves(i, j), s, s') && |t| == 5
    ensures Ready(s', i, j) && Moved(s, s', i, j) && Gap(PairAt(s', i, j)) < Gap(PairAt(s, i, j))
  {
    var q := RoundProgress(PairAt(s, i, j));
    t, s' := RoundTrace(s, i, j, q);
    Arrives(s, s', i, j, q);
  }

  // ---- any number of rounds ----

  /** How far the pair is from being caught up. */
  ghost function Left(s: State, i: nat, j: nat): nat
    requires Ready(s, i, j)
  {
    Gap(PairAt(s, i, j))
  }

  /** From a linked pair on: at most four steps for each index of the gap. */
  lemma {:induction false} RoundsTrace(s: State, i: nat, j: nat) returns (t: seq<State>, s': State)
    requires Ready(s, i, j)
    ensures Trace(t, RoundMoves(i, j), s, s') && |t| <= 4 * Left(s, i, j) + 1
    ensures Ready(s', i, j) && Moved(s, s', i, j) && Left(s', i, j) == 0
    decreases Left(s, i, j)
  {
    if Left(s, i, j) == 0 {
      t, s' := [s], s;
      assert s.nodes[i := s.nodes[i]][j := s.nodes[j]] == s.nodes;
      assert s.nodes[i].prs[j := s.nodes[i].prs[j]] == s.nodes[i].prs;
    } else {
      var u, m := ProgressTrace(s, i, j);
      var v;
      v, s' := RoundsTrace(m, i, j);
      t := TraceJoin(u, v, RoundMoves(i, j), s, m, s');
      MovedOn(s, m, s', i, j);
    }
  }

  lemma RoundIsNext(s: State, s': State, i: nat, j: nat)
    requires RoundMoves(i, j)(s, s')
    ensures AnyMove()(s, s')
  {
  }

  lemma CaughtUpBy(s: State, s': State, i: nat, j: nat)
    requires Ready(s, i, j) && Ready(s', i, j) && Moved(s, s', i, j) && Left(s', i, j) == 0
    requires s.nodes[j].log.base == 0
    ensures var l := s.nodes[i].log.ents;
            && l <= s'.nodes[j].log.ents
            && j in s'.nodes[i].prs && s'.nodes[i].prs[j].matched == |l| && s'.nodes[i].role == Leader
  {
    NoGapCaughtUp(PairAt(s', i, j));
  }

  lemma CatchesUp(r: seq<State>, a: State, b: State, i: nat, j: nat) returns (r': seq<State>, c: State)
    requires Trace(r, AnyMove(), a, b) && Ready(b, i, j)
    ensures Trace(r', AnyMove(), a, c) && r <= r' && |r'| <= |r| + 4 * Left(b, i, j)
    ensures Trace(r'[|r| - 1..], RoundMoves(i, j), b, c)
    ensures Ready(c, i, j) && Moved(b, c, i, j) && Left(c, i, j) == 0
  {
    var t;
    t, c := RoundsTrace(b, i, j);
    forall s, s' | RoundMoves(i, j)(s, s') ensures AnyMove()(s, s') { RoundIsNext(s, s', i, j); }
    r' := TraceExtends(r, t, RoundMoves(i, j), AnyMove(), a, b, c);
  }

  /** Replication can always be completed: in every reachable state a leader and a peer of no higher term
      that it probes can, by resuming, sending and hearing each other alone, bring the peer's log to begin
      with the leader's, which stays as it is, and the leader's record to say so. Four steps for each
      index of the gap are enough, and no other node takes part. */
  lemma ReachableCatchesUp(r: Run, voters: set<nat>, i: nat, j: nat) returns (r': Run)
    requires IsRun(r, voters) && i in r[|r| - 1].nodes && j in r[|r| - 1].nodes && i != j
    requires var n, f := r[|r| - 1].nodes[i], r[|r| - 1].nodes[j];
             n.role == Leader && f.term <= n.term && j in n.prs && n.prs[j].state == Probe
    ensures IsRun(r', voters) && r <= r'
    ensures Trace(r'[|r| - 1..], RoundMoves(i, j), r[|r| - 1], r'[|r'| - 1])
    ensures var n := r[|r| - 1].nodes[i]; |r'| <= |r| + 4 * GapOf(n.prs[j], |n.log.ents|)
    ensures var s, s' := r[|r| - 1], r'[|r'| - 1];
            && Moved(s, s', i, j) && s'.nodes[i].role == Leader
            && s.nodes[i].log.ents <= s'.nodes[j].log.ents
            && j in s'.nodes[i].prs && s'.nodes[i].prs[j].matched == |s.nodes[i].log.ents|
  {
    var k := |r| - 1;
    ReachableLinked(r, voters, k, i, j);
    LogStartsAtOne(r, voters, k, i);
    LogStartsAtOne(r, voters, k, j);
    RunIsTrace(r, voters);
    var s';
    r', s' := CatchesUp(r, r[0], r[k], i, j);
    TraceIsRun(r', voters, s');
    CaughtUpBy(r[k], s', i, j);
  }
}
