/** A run of two nodes that elects a leader and commits an entry: what the theorems about runs speak
    of does happen. */
module ExampleRun {
  import opened RaftTypes
  import opened AbstractLog
  import opened ProgressSpec
  import opened Quorum
  import opened NodeSpec
  import opened Cluster

  const PAIR := {1, 2}
  const FRESH_PR := Pr(0, 1, Probe, false, 0, false, [], 1)

  /** A limit that lets one entry through at a time. */
  const ONE_ENTRY: nat := 1

  function Idle(i: nat): Node {
    Node(i, Follower, 0, INVALID_ID, INVALID_ID, map[], Log(0, 0, [], 0, 0), map[1 := FRESH_PR, 2 := FRESH_PR],
         PAIR, false, false, ONE_ENTRY)
  }

  const REQUEST := Message(MsgRequestVote, 2, 1, 1)
  const GRANT := Message(MsgRequestVoteResponse, 1, 2, 1)
  const FIRST := Entry(EntryNormal, 1, 1, [])
  const APPEND := Message(MsgAppend, 2, 1, 1, entries := [FIRST])
  const ACK := Message(MsgAppendResponse, 1, 2, 1, index := 1)

  function Campaigning(): Node { Idle(1).(role := Candidate, term := 1, vote := 1, votes := map[1 := true]) }

  function Granting(): Node { Idle(2).(term := 1, vote := 1) }

  function Leading(paused: bool, peer: nat, committed: nat): Node {
    Idle(1).(role := Leader, term := 1, vote := 1, leaderId := 1, log := Log(0, 0, [FIRST], committed, 0),
             prs := map[1 := FRESH_PR.(matched := 1, nextIdx := 2, state := Replicate),
                        2 := FRESH_PR.(matched := peer, nextIdx := peer + 1, paused := paused)])
  }

  function Following(): Node { Granting().(log := Log(0, 0, [FIRST], 0, 0)) }

  lemma PairVotes(n: Node)
    requires n.voters == PAIR
    ensures n.votes == map[1 := true] ==> !Elected(n)
    ensures n.votes == map[1 := true, 2 := true] ==> Elected(n)
  {
    assert |PAIR| == 2;
    if n.votes == map[1 := true] { assert Backers(n) == {1}; }
    if n.votes == map[1 := true, 2 := true] { assert Backers(n) == PAIR; }
  }

  lemma PairCommits(n: Node)
    requires n.voters == PAIR && n.prs.Keys == PAIR
    ensures MaximalCommitted(n.prs, n.voters) == Min(n.prs[1].matched, n.prs[2].matched)
  {
    assert |PAIR| == 2;
    var low := Min(n.prs[1].matched, n.prs[2].matched);
    assert Reached(n.prs, n.voters, low) == PAIR;
    assert QuorumReached(n.prs, n.voters, low);
    var reached := Reached(n.prs, n.voters, MaximalCommitted(n.prs, n.voters));
    assert |PAIR - reached| == |PAIR| - |reached|;
    assert PAIR - reached == {};
    assert 1 in reached && 2 in reached;
  }

  lemma Campaigns()
    ensures Idle(1).WellFormed()
    ensures Perform(Idle(1), Timeout) == Done(Campaigning(), {REQUEST})
  {
    var c := RegisterVote(BecomeCandidate(Idle(1)), 1, true);
    assert c.prs == Campaigning().prs;
    assert c == Campaigning();
    PairVotes(c);
    assert Backers(c) == {1};
    assert VoteRequests(c, MsgRequestVote, 1) == {REQUEST};
  }

  lemma Grants()
    ensures Idle(2).WellFormed()
    ensures Perform(Idle(2), Deliver(REQUEST, AS_MEANT)) == Done(Granting(), {GRANT})
  {
    var n := BecomeFollower(Idle(2), 1, INVALID_ID);
    assert n.prs == Idle(2).prs;
  }

  lemma Crowns(c: Node)
    requires c == Campaigning().(votes := map[1 := true, 2 := true])
    ensures c.WellFormed() && BecomeLeader(c) == Leading(false, 0, 0)
  {
    var e := Enthroned(c);
    assert e.prs == map[1 := FRESH_PR.(state := Replicate), 2 := FRESH_PR];
    assert Stamped([EMPTY_ENTRY], 1, 1) == [FIRST];
    var a := Appended(e, [EMPTY_ENTRY]);
    assert a.log.ents == [FIRST];
    assert a.prs == Leading(false, 0, 0).prs;
    assert a == Leading(false, 0, 0);
    PairCommits(a);
  }

  lemma SendsOne()
    ensures SendTo(Leading(false, 0, 0), 2) == Sending(FRESH_PR.(paused := true), {APPEND})
  {
    var n := Leading(false, 0, 0);
    assert n.log.Range(1, 2) == [FIRST];
    assert Batch(n, 1) == Ok([FIRST]);
  }

  lemma Sends()
    ensures Broadcast(Leading(false, 0, 0)) == Done(Leading(true, 0, 0), {APPEND})
  {
    var n := Leading(false, 0, 0);
    SendsOne();
    assert forall j :: j in n.prs && j != n.id ==> j == 2;
    var o := Broadcast(n);
    assert o.Done?;
    assert o.node.prs == Leading(true, 0, 0).prs;
    assert o.out == {APPEND};
  }

  lemma Counts()
    ensures Campaigning().WellFormed()
    ensures CountVote(Campaigning(), GRANT, AS_MEANT) == Done(Leading(true, 0, 0), {APPEND})
  {
    var c := RegisterVote(Campaigning(), 2, true);
    assert c.votes == map[1 := true, 2 := true];
    PairVotes(c);
    Crowns(c);
    Sends();
  }

  /** A candidate counts a vote of its own term. */
  lemma StepCounts(n: Node, m: Message, ch: Choice)
    requires n.WellFormed() && n.role == Candidate && m.mtype == MsgRequestVoteResponse && m.term == n.term
    ensures Step(n, m, ch) == CountVote(n, m, ch)
  {
  }

  lemma Wins()
    ensures Campaigning().WellFormed()
    ensures Perform(Campaigning(), Deliver(GRANT, AS_MEANT)) == Done(Leading(true, 0, 0), {APPEND})
  {
    Counts();
    StepCounts(Campaigning(), GRANT, AS_MEANT);
  }

  lemma Follows()
    ensures Granting().WellFormed()
    ensures Perform(Granting(), Deliver(APPEND, AS_MEANT)) == Done(Following(), {ACK})
  {
    var l := Granting().log;
    assert Contiguous([FIRST], 1);
    assert [FIRST][1 - (0 + 1)..] == [FIRST];
    assert l.FindConflict([FIRST]) == 1;
    assert l.Overwrite([FIRST]).ents == [FIRST];
    assert l.MaybeAppend(0, 0, 0, [FIRST]) == Accepted(Following().log, 1);
  }

  lemma Commits()
    ensures Leading(true, 0, 0).WellFormed()
    ensures Perform(Leading(true, 0, 0), Deliver(ACK, AS_MEANT)) == Done(Leading(false, 1, 1), {})
  {
    var n := Leading(true, 0, 0);
    var a := n.(prs := n.prs[2 := n.prs[2].MaybeUpdate(1)]);
    assert a.prs == Leading(false, 1, 1).prs;
    PairCommits(a);
    assert MaybeCommit(a) == Leading(false, 1, 1);
  }

  function Both(one: Node, two: Node, sent: set<Message>): State { State(map[1 := one, 2 := two], sent) }

  lemma FirstMoves(one: Node, two: Node, sent: set<Message>, a: Action, n: Node, out: set<Message>)
    requires one.id == 1 && one.WellFormed() && Enabled(Both(one, two, sent), one, a)
    requires Perform(one, a) == Done(n, out)
    ensures Next(Both(one, two, sent), Both(n, two, sent + out))
  {
    var s, s' := Both(one, two, sent), Both(n, two, sent + out);
    assert s.nodes[1 := n] == s'.nodes;
    assert NextBy(s, s', 1, a);
  }

  lemma SecondMoves(one: Node, two: Node, sent: set<Message>, a: Action, n: Node, out: set<Message>)
    requires two.id == 2 && two.WellFormed() && Enabled(Both(one, two, sent), two, a)
    requires Perform(two, a) == Done(n, out)
    ensures Next(Both(one, two, sent), Both(one, n, sent + out))
  {
    var s, s' := Both(one, two, sent), Both(one, n, sent + out);
    assert s.nodes[2 := n] == s'.nodes;
    assert NextBy(s, s', 2, a);
  }

  const S0 := Both(Idle(1), Idle(2), {})
  const S1 := Both(Campaigning(), Idle(2), {} + {REQUEST})
  const S2 := Both(Campaigning(), Granting(), {} + {REQUEST} + {GRANT})
  const S3 := Both(Leading(true, 0, 0), Granting(), {} + {REQUEST} + {GRANT} + {APPEND})
  const S4 := Both(Leading(true, 0, 0), Following(), {} + {REQUEST} + {GRANT} + {APPEND} + {ACK})
  const S5 := Both(Leading(false, 1, 1), Following(), {} + {REQUEST} + {GRANT} + {APPEND} + {ACK} + {})

  lemma Move1()
    ensures Next(S0, S1)
  {
    Campaigns();
    FirstMoves(Idle(1), Idle(2), {}, Timeout, Campaigning(), {REQUEST});
  }

  lemma Move2()
    ensures Next(S1, S2)
  {
    Grants();
    SecondMoves(Campaigning(), Idle(2), {} + {REQUEST}, Deliver(REQUEST, AS_MEANT), Granting(), {GRANT});
  }

  lemma Move3()
    ensures Next(S2, S3)
  {
    Wins();
    FirstMoves(Campaigning(), Granting(), {} + {REQUEST} + {GRANT}, Deliver(GRANT, AS_MEANT),
               Leading(true, 0, 0), {APPEND});
  }

  lemma Move4()
    ensures Next(S3, S4)
  {
    Follows();
    SecondMoves(Leading(true, 0, 0), Granting(), {} + {REQUEST} + {GRANT} + {APPEND}, Deliver(APPEND, AS_MEANT),
                Following(), {ACK});
  }

  lemma Move5()
    ensures Next(S4, S5)
  {
    Commits();
    FirstMoves(Leading(true, 0, 0), Following(), {} + {REQUEST} + {GRANT} + {APPEND} + {ACK}, Deliver(ACK, AS_MEANT),
               Leading(false, 1, 1), {});
  }

  ghost predicate Steps(r: Run) {
    r != [] && forall k :: 0 <= k < |r| - 1 ==> StepAt(r, k)
  }

  lemma OneMore(r: Run, s: State) returns (r': Run)
    requires Steps(r) && Next(r[|r| - 1], s)
    ensures Steps(r') && r'[0] == r[0] && r'[|r'| - 1] == s
  {
    r' := r + [s];
    forall k | 0 <= k < |r'| - 1 ensures StepAt(r', k) {
      if k < |r| - 1 { assert StepAt(r, k); }
    }
  }

  /** Six states in a row are a run. */
  lemma SixStates(voters: set<nat>, a: State, b: State, c: State, d: State, e: State, f: State) returns (r: Run)
    requires Init(a, voters) && Next(a, b) && Next(b, c) && Next(c, d) && Next(d, e) && Next(e, f)
    ensures IsRun(r, voters) && r[|r| - 1] == f
  {
    r := OneMore([a], b);
    r := OneMore(r, c);
    r := OneMore(r, d);
    r := OneMore(r, e);
    r := OneMore(r, f);
  }

  /** Three of the steps: a leader has sent its first append. */
  lemma FirstAppendSent() returns (r: Run)
    ensures IsRun(r, PAIR) && r[|r| - 1] == S3
  {
    Starts();
    Move1();
    Move2();
    Move3();
    r := OneMore([S0], S1);
    r := OneMore(r, S2);
    r := OneMore(r, S3);
  }

  lemma Starts()
    ensures Init(S0, PAIR)
  {
  }

  /** Five steps take two fresh nodes to a leader whose entry both hold and it has committed. */
  lemma CommitHappens() returns (r: Run)
    ensures IsRun(r, PAIR)
    ensures var s := r[|r| - 1];
            && 1 in s.nodes && s.nodes[1].role == Leader && s.nodes[1].log.committed == 1
            && 2 in s.nodes && s.nodes[2].log.ents == s.nodes[1].log.ents == [FIRST]
  {
    Starts();
    Move1();
    Move2();
    Move3();
    Move4();
    Move5();
    r := SixStates(PAIR, S0, S1, S2, S3, S4, S5);
  }
}
