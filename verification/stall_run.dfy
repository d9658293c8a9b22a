/** A run in which the probing loop stalls: a leader of a second term, a follower that holds nothing, and
    a rejection delivered twice. */
module StallRun {
  import opened RaftTypes
  import opened SizeLimit
  import opened AbstractLog
  import opened ProgressSpec
  import opened NodeSpec
  import opened LogProperties
  import opened Replication
  import opened Cluster
  import opened ReplicationRuns
  import opened Traces
  import E = ExampleRun

  const SECOND := Entry(EntryNormal, 1, 2, [])
  const THIRD := Entry(EntryNormal, 2, 3, [])
  const THREE := [E.FIRST, SECOND, THIRD]

  // ---- the second election ----

  const REQUEST := Message(MsgRequestVote, 2, 1, 2, logTerm := 1, index := 2)
  const GRANT := Message(MsgRequestVoteResponse, 1, 2, 2)
  const APPEND := Message(MsgAppend, 2, 1, 2, logTerm := 1, index := 2, entries := [THIRD])
  const REJECTION := Message(MsgAppendResponse, 1, 2, 2, index := 2, reject := true)

  const OWN_PR := E.FRESH_PR.(matched := 2, nextIdx := 3)
  const FRESH_AGAIN := E.FRESH_PR.(nextIdx := 3)
  const ASKED := FRESH_AGAIN.(paused := true)

  function Extended(): Node {
    E.Leading(true, 0, 0).(log := Log(0, 0, [E.FIRST, SECOND], 0, 0),
                           prs := map[1 := OWN_PR.(state := Replicate), 2 := E.FRESH_PR.(paused := true)])
  }

  function Restarted(): Node {
    E.Idle(1).(term := 1, vote := 1, log := Log(0, 0, [E.FIRST, SECOND], 0, 0),
               prs := map[1 := OWN_PR, 2 := FRESH_AGAIN])
  }

  function Standing(): Node { Restarted().(role := Candidate, term := 2, votes := map[1 := true]) }

  function Following(): Node { E.Idle(2).(term := 2, vote := 1) }

  function Leading(pr: Pr): Node {
    Restarted().(role := Leader, term := 2, leaderId := 1, log := Log(0, 0, THREE, 0, 0),
                 prs := map[1 := OWN_PR.(matched := 3, nextIdx := 4, state := Replicate), 2 := pr])
  }

  lemma Proposes()
    ensures E.Leading(true, 0, 0).WellFormed()
    ensures Perform(E.Leading(true, 0, 0), Propose([EMPTY_ENTRY])) == Done(Extended(), {})
  {
    var n := E.Leading(true, 0, 0);
    assert Stamped([EMPTY_ENTRY], 1, 2) == [SECOND];
    var a := Appended(n, [EMPTY_ENTRY]);
    assert a.log.ents == [E.FIRST, SECOND];
    assert a.prs == Extended().prs;
    E.PairCommits(a);
  }

  lemma Restarts()
    ensures Extended().WellFormed()
    ensures Perform(Extended(), Crash(HardState(1, 1, 0), 0)) == Done(Restarted(), {})
  {
    assert ResetPeers(Extended()) == Restarted().prs;
  }

  lemma Stands()
    ensures Restarted().WellFormed()
    ensures Perform(Restarted(), Timeout) == Done(Standing(), {REQUEST})
  {
    assert ResetPeers(Restarted()) == Restarted().prs;
    var c := RegisterVote(BecomeCandidate(Restarted()), 1, true);
    assert c == Standing();
    E.PairVotes(c);
    assert VoteRequests(c, MsgRequestVote, 2) == {REQUEST};
  }

  lemma Grants()
    ensures E.Granting().WellFormed()
    ensures Perform(E.Granting(), Deliver(REQUEST, AS_MEANT)) == Done(Following(), {GRANT})
  {
    var n := BecomeFollower(E.Granting(), 2, INVALID_ID);
    assert n.prs == E.Granting().prs;
  }

  lemma Enthrones(c: Node) returns (e: Node)
    requires c == Standing().(votes := map[1 := true, 2 := true])
    ensures c.WellFormed() && e == Enthroned(c)
    ensures e == Leading(FRESH_AGAIN).(log := c.log, prs := map[1 := OWN_PR.(state := Replicate), 2 := FRESH_AGAIN])
  {
    e := Enthroned(c);
    assert e.prs == map[1 := OWN_PR.(state := Replicate), 2 := FRESH_AGAIN];
  }

  lemma Crowns(c: Node)
    requires c == Standing().(votes := map[1 := true, 2 := true])
    ensures c.WellFormed() && BecomeLeader(c) == Leading(FRESH_AGAIN)
  {
    var e := Enthrones(c);
    assert Stamped([EMPTY_ENTRY], 2, 3) == [THIRD];
    var a := Appended(e, [EMPTY_ENTRY]);
    assert a.log.ents == THREE;
    assert a.prs == Leading(FRESH_AGAIN).prs;
    E.PairCommits(a);
  }

  lemma Sends()
    ensures Broadcast(Leading(FRESH_AGAIN)) == Done(Leading(ASKED), {APPEND})
  {
    var n := Leading(FRESH_AGAIN);
    assert n.log.Range(3, 4) == [THIRD];
    assert Batch(n, 3) == Ok([THIRD]);
    assert SendTo(n, 2) == Sending(ASKED, {APPEND});
    assert forall j :: j in n.prs && j != n.id ==> j == 2;
    var o := Broadcast(n);
    assert o.Done?;
    assert o.node.prs == Leading(ASKED).prs;
    assert o.out == {APPEND};
  }

  lemma Wins()
    ensures Standing().WellFormed()
    ensures Perform(Standing(), Deliver(GRANT, AS_MEANT)) == Done(Leading(ASKED), {APPEND})
  {
    var c := RegisterVote(Standing(), 2, true);
    assert c.votes == map[1 := true, 2 := true];
    E.PairVotes(c);
    Crowns(c);
    Sends();
    E.StepCounts(Standing(), GRANT, AS_MEANT);
  }

  lemma Rejects()
    ensures Following().WellFormed()
    ensures Perform(Following(), Deliver(APPEND, AS_MEANT)) == Done(Following(), {REJECTION})
  {
  }

  lemma FallsBack(pr: Pr)
    requires pr.nextIdx == 3 && pr.state == Probe
    ensures Leading(pr).WellFormed()
    ensures Perform(Leading(pr), Deliver(REJECTION, AS_MEANT)) == Done(Leading(pr.(nextIdx := 1, paused := false)), {})
  {
    assert Leading(pr).prs[2 := pr.(nextIdx := 1, paused := false)] == Leading(pr.(nextIdx := 1, paused := false)).prs;
  }

  // ---- up to the fresh probe, rejected once ----

  lemma FirstElection() returns (t: seq<State>)
    ensures Trace(t, AnyMove(), E.S0, E.S3)
  {
    E.Move1();
    E.Move2();
    E.Move3();
    TraceOne(AnyMove(), E.S0, E.S1);
    t := TraceMore([E.S0, E.S1], AnyMove(), E.S0, E.S1, E.S2);
    t := TraceMore(t, AnyMove(), E.S0, E.S2, E.S3);
  }

  lemma Returns(t: seq<State>, a: State, sent: set<Message>) returns (v: seq<State>, sent': set<Message>)
    requires Trace(t, AnyMove(), a, E.Both(E.Leading(true, 0, 0), E.Granting(), sent))
    ensures Trace(v, AnyMove(), a, E.Both(Standing(), E.Granting(), sent')) && REQUEST in sent'
  {
    Proposes();
    E.FirstMoves(E.Leading(true, 0, 0), E.Granting(), sent, Propose([EMPTY_ENTRY]), Extended(), {});
    v := TraceMore(t, AnyMove(), a, E.Both(E.Leading(true, 0, 0), E.Granting(), sent),
                   E.Both(Extended(), E.Granting(), sent + {}));
    v, sent' := StandsAgain(v, a, sent + {});
  }

  lemma StandsAgain(t: seq<State>, a: State, sent: set<Message>) returns (v: seq<State>, sent': set<Message>)
    requires Trace(t, AnyMove(), a, E.Both(Extended(), E.Granting(), sent))
    ensures Trace(v, AnyMove(), a, E.Both(Standing(), E.Granting(), sent')) && REQUEST in sent'
  {
    Restarts();
    E.FirstMoves(Extended(), E.Granting(), sent, Crash(HardState(1, 1, 0), 0), Restarted(), {});
    var b := E.Both(Restarted(), E.Granting(), sent + {});
    v := TraceMore(t, AnyMove(), a, E.Both(Extended(), E.Granting(), sent), b);
    Stands();
    E.FirstMoves(Restarted(), E.Granting(), sent + {}, Timeout, Standing(), {REQUEST});
    sent' := sent + {} + {REQUEST};
    v := TraceMore(v, AnyMove(), a, b, E.Both(Standing(), E.Granting(), sent'));
  }

  lemma LeadsAgain(t: seq<State>, a: State, sent: set<Message>) returns (v: seq<State>, sent': set<Message>)
    requires Trace(t, AnyMove(), a, E.Both(Standing(), E.Granting(), sent)) && REQUEST in sent
    ensures Trace(v, AnyMove(), a, E.Both(Leading(ASKED), Following(), sent'))
    ensures APPEND in sent'
  {
    Grants();
    E.SecondMoves(Standing(), E.Granting(), sent, Deliver(REQUEST, AS_MEANT), Following(), {GRANT});
    var b := E.Both(Standing(), Following(), sent + {GRANT});
    v := TraceMore(t, AnyMove(), a, E.Both(Standing(), E.Granting(), sent), b);
    Wins();
    var n := Leading(ASKED);
    E.FirstMoves(Standing(), Following(), sent + {GRANT}, Deliver(GRANT, AS_MEANT), n, {APPEND});
    sent' := sent + {GRANT} + {APPEND};
    v := TraceMore(v, AnyMove(), a, b, E.Both(n, Following(), sent'));
  }

  lemma ProbesAfresh(t: seq<State>, a: State, sent: set<Message>) returns (v: seq<State>, sent': set<Message>)
    requires Trace(t, AnyMove(), a, E.Both(Leading(ASKED), Following(), sent))
    requires APPEND in sent
    ensures Trace(v, AnyMove(), a, E.Both(Leading(E.FRESH_PR), Following(), sent')) && REJECTION in sent'
  {
    var pr := ASKED;
    Rejects();
    E.SecondMoves(Leading(pr), Following(), sent, Deliver(APPEND, AS_MEANT), Following(), {REJECTION});
    sent' := sent + {REJECTION} + {};
    var b := E.Both(Leading(pr), Following(), sent + {REJECTION});
    v := TraceMore(t, AnyMove(), a, E.Both(Leading(pr), Following(), sent), b);
    FallsBack(pr);
    E.FirstMoves(Leading(pr), Following(), sent + {REJECTION}, Deliver(REJECTION, AS_MEANT), Leading(E.FRESH_PR), {});
    v := TraceMore(v, AnyMove(), a, b, E.Both(Leading(E.FRESH_PR), Following(), sent'));
  }

  lemma Beginning() returns (t: seq<State>, sent: set<Message>)
    ensures Trace(t, AnyMove(), E.S0, E.Both(Leading(E.FRESH_PR), Following(), sent)) && REJECTION in sent
  {
    t := FirstElection();
    t, sent := Returns(t, E.S0, E.S3.sent);
    t, sent := LeadsAgain(t, E.S0, sent);
    t, sent := ProbesAfresh(t, E.S0, sent);
  }

  // ---- two exchanges, the same rejection again, and a third exchange ----

  /** The leader of three entries believes that the follower has the first `m`, and it has no more. */
  ghost predicate Probing(s: State, m: nat, next: nat) {
    && Ready(s, 1, 2) && s.nodes[1].log.ents == THREE && s.nodes[1].maxMsgSize == E.ONE_ENTRY
    && s.nodes[1].prs[2] == E.FRESH_PR.(matched := m, nextIdx := next)
    && s.nodes[2].log.LastIndex() <= m && REJECTION in s.sent && s.nodes[1].term == 2
  }

  lemma ProbingFresh(sent: set<Message>)
    requires REJECTION in sent
    ensures Probing(E.Both(Leading(E.FRESH_PR), Following(), sent), 0, 1)
  {
    var n, f := Leading(E.FRESH_PR), Following();
    assert Holds(f.log, THREE, 0);
    assert LeaderLog(THREE);
  }

  lemma OneFits(es: seq<Entry>)
    requires es != [] && EntrySize(es[0]) > 0 && (|es| > 1 ==> EntrySize(es[1]) > 0)
    ensures LimitSize(es, E.ONE_ENTRY) == [es[0]]
  {
    if |es| > 1 {
      assert es[..0] == [] && es[..1] == [es[0]] && es[..1][..0] == [] && es[..2][..1] == es[..1];
      assert TotalSize(es[..1]) == EntrySize(es[0]) && TotalSize(es[..2]) == TotalSize(es[..1]) + EntrySize(es[1]);
      assert KeepFrom(es, 1, 1) == 1 == KeepFrom(es, 0, 1);
    }
  }

  lemma Sized(e: Entry)
    requires e.term > 0
    ensures EntrySize(e) > 0
  {
  }

  lemma FirstOfThree(next: nat)
    requires 1 <= next <= 3
    ensures LimitSize(THREE[next - 1..], E.ONE_ENTRY) == [THREE[next - 1]]
  {
    var es := THREE[next - 1..];
    assert es[0] == THREE[next - 1] && (|es| > 1 ==> es[1] == THREE[next]);
    Sized(es[0]);
    if |es| > 1 { Sized(es[1]); }
    OneFits(es);
  }

  lemma BatchOfThree(n: Node, next: nat)
    requires n.log.base == 0 && n.log.ents == THREE && n.maxMsgSize == E.ONE_ENTRY && 1 <= next <= 3
    ensures Batch(n, next) == Ok([THREE[next - 1]])
  {
    assert n.log.Range(next, 4) == THREE[next - 1..];
    FirstOfThree(next);
  }

  lemma BatchOfOne(s: State, m: nat, next: nat)
    requires Probing(s, m, next) && 1 <= next <= 3
    ensures Batch(s.nodes[1], next) == Ok([THREE[next - 1]])
  {
    BatchOfThree(s.nodes[1], next);
  }

  /** Below the next entry nothing is rejected. */
  lemma Accepted(s: State, m: nat, next: nat)
    requires Probing(s, m, next) && 1 <= next <= m + 1 && m <= 2
    ensures !WillReject(PairAt(s, 1, 2))
    ensures WillAck(PairAt(s, 1, 2), next) <= Max(m, next)
    ensures next == m + 1 ==> WillAck(PairAt(s, 1, 2), next) == next
  {
    var p := PairAt(s, 1, 2);
    if WillReject(p) { NeverRejectsHeld(p, next - 1); }
  }

  lemma AcknowledgedBy(s: State, m: nat) returns (q: Pair)
    requires Probing(s, m, m + 1) && m <= 2
    ensures Exchange(PairAt(s, 1, 2), q) && Linked(q)
    ensures q.leader == s.nodes[1].(log := q.leader.log, prs := q.leader.prs) && q.follower.id == 2
    ensures q.leader.log.ents == THREE && q.Peer() == E.FRESH_PR.(matched := m + 1, nextIdx := m + 2)
    ensures q.follower.log.LastIndex() <= m + 1
  {
    BatchOfOne(s, m, m + 1);
    Accepted(s, m, m + 1);
    var c;
    q, c := ExchangeProgress(PairAt(s, 1, 2));
    assert |THREE[c.idx..c.e]| == 1;
  }

  lemma Acknowledges(s: State, m: nat) returns (t: seq<State>, s': State)
    requires Probing(s, m, m + 1) && m <= 2
    ensures Trace(t, RoundMoves(1, 2), s, s') && Probing(s', m + 1, m + 2)
  {
    var q := AcknowledgedBy(s, m);
    t, s' := ExchangeTrace(s, 1, 2, q);
    assert PairAt(s', 1, 2) == q;
  }

  lemma RejectedAgain(s: State) returns (s': State)
    requires Probing(s, 2, 3)
    ensures RoundMoves(1, 2)(s, s') && Probing(s', 2, 1)
  {
    var n := s.nodes[1];
    LeaderHears(n, REJECTION);
    var n' := n.(prs := n.prs[2 := E.FRESH_PR.(matched := 2, nextIdx := 1)]);
    s' := AnswerStep(s, 1, 2, REJECTION, n', {});
  }

  lemma Stalls(s: State) returns (t: seq<State>, s': State)
    requires Probing(s, 2, 1)
    ensures Trace(t, RoundMoves(1, 2), s, s') && Ready(s', 1, 2)
    ensures PairAt(s', 1, 2).Peer().matched == 2 && s'.nodes[1].log.ents == THREE && s'.nodes[2].log.LastIndex() <= 2
    ensures forall q :: !Exchange(PairAt(s', 1, 2), q)
  {
    BatchOfOne(s, 2, 1);
    Accepted(s, 2, 1);
    var p := PairAt(s, 1, 2);
    assert !BringsNews(p);
    var q := StallsWithoutNews(p);
    t, s' := ExchangeTrace(s, 1, 2, q);
    assert PairAt(s', 1, 2) == q;
  }

  lemma Middle(a: State) returns (t: seq<State>, s: State)
    requires Probing(a, 0, 1)
    ensures Trace(t, RoundMoves(1, 2), a, s) && Probing(s, 2, 1)
  {
    var b, c, u;
    t, b := Acknowledges(a, 0);
    u, c := Acknowledges(b, 1);
    t := TraceJoin(t, u, RoundMoves(1, 2), a, b, c);
    s := RejectedAgain(c);
    TraceOne(RoundMoves(1, 2), c, s);
    t := TraceJoin(t, [c, s], RoundMoves(1, 2), a, c, s);
  }

  /** Everything the leader believes to be there is, no exchange follows, and an entry is missing. */
  ghost predicate Stalled(s: State) {
    && Ready(s, 1, 2) && s.nodes[1].log.ents == THREE && |s.nodes[2].log.ents| <= 2
    && PairAt(s, 1, 2).Peer().matched == 2 && forall q :: !Exchange(PairAt(s, 1, 2), q)
  }

  lemma Ending(a: State) returns (t: seq<State>, s: State)
    requires Probing(a, 0, 1)
    ensures Trace(t, RoundMoves(1, 2), a, s) && Stalled(s)
  {
    var m, u;
    t, m := Middle(a);
    u, s := Stalls(m);
    t := TraceJoin(t, u, RoundMoves(1, 2), a, m, s);
  }

  lemma Whole() returns (t: seq<State>, s: State)
    ensures Trace(t, AnyMove(), E.S0, s) && Stalled(s)
  {
    var sent, u;
    t, sent := Beginning();
    ProbingFresh(sent);
    u, s := Ending(E.Both(Leading(E.FRESH_PR), Following(), sent));
    forall x, y | RoundMoves(1, 2)(x, y) ensures AnyMove()(x, y) { RoundIsNext(x, y, 1, 2); }
    t := TraceExtends(t, u, RoundMoves(1, 2), AnyMove(), E.S0, E.Both(Leading(E.FRESH_PR), Following(), sent), s);
  }

  lemma AsRun(t: seq<State>, s: State) returns (r: Run)
    requires Trace(t, AnyMove(), E.S0, s)
    ensures IsRun(r, E.PAIR) && r[|r| - 1] == s
  {
    E.Starts();
    r := t;
    TraceIsRun(r, E.PAIR, s);
  }

  /** Without a resume the probing loop can stall, and it does in a run: a leader of its second term is
      rejected, gets two entries across, hears the same rejection once more, and sends the first entry
      again. The acknowledgement is no news, so the peer stays paused: no exchange follows, although the
      third entry is missing. */
  lemma ProbeStalls() returns (r: Run)
    ensures IsRun(r, E.PAIR) && Stalled(r[|r| - 1])
  {
    var t, s := Whole();
    r := AsRun(t, s);
  }
}
