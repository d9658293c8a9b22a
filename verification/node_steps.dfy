/** Every elementary transition of one node keeps the node consistent with the (grown) history. */
module NodeSteps {
  import opened RaftTypes
  import opened AbstractLog
  import opened ProgressSpec
  import opened Quorum
  import opened NodeSpec
  import opened History
  import opened HistoryLemmas
  import opened HistorySteps

  ghost predicate Local(g: Hist, voters: set<nat>, i: nat, n: Node) {
    HistOk(g, voters) && NodeOk(g, voters, i, n) && INVALID_ID !in voters
  }

  lemma LocalShape(g: Hist, voters: set<nat>, i: nat, n: Node)
    requires NodeOk(g, voters, i, n)
    ensures n.WellFormed()
  {
    forall k | 0 <= k < |n.log.ents| ensures n.log.ents[k].index == k + 1 {
      assert GoodEntry(g, n.log.ents, k, n.term);
    }
  }

  // ---- steps that record nothing ----

  /** Stepping down, pre-campaigning, applying, restarting: ballot and log stay, the commit mark may
      fall back, the role is given up or left alone with everything it rests on. */
  lemma Relax(g: Hist, voters: set<nat>, i: nat, n: Node, n': Node)
    requires NodeOk(g, voters, i, n)
    requires n'.id == n.id && n'.voters == n.voters && n'.prs.Keys == n.prs.Keys
    requires n'.term == n.term && n'.vote == n.vote
    requires n'.log == n.log.(committed := n'.log.committed, applied := n'.log.applied)
    requires n'.log.applied <= n'.log.committed <= n.log.committed
    requires n'.role in {Follower, PreCandidate} || (n'.role == n.role && n'.votes == n.votes && n'.prs == n.prs)
    ensures NodeOk(g, voters, i, n')
  {
    CommitOkShrinks(g, voters, n.log.ents, n.log.committed, n'.log.committed, n.term);
    if n'.role == Leader {
      forall j | j in n'.prs ensures PeerOk(g, n', j) { assert PeerOk(g, n, j); }
    }
  }

  lemma Raise(g: Hist, voters: set<nat>, i: nat, n: Node, term: nat, leader: nat)
    requires HistOk(g, voters) && NodeOk(g, voters, i, n) && term > n.term
    ensures NodeOk(g, voters, i, BecomeFollower(n, term, leader))
  {
    var n' := BecomeFollower(n, term, leader);
    var es := n.log.ents;
    GoodLogGrows(g, g, es, n.term, term) by { GrowsRefl(g); }
    KeepOkRaise(g, voters, i, n, term);
    CommitOkGrows(g, g, voters, es, es, n.log.committed, n.term, term) by { GrowsRefl(g); }
  }

  lemma GrowsRefl(g: Hist)
    ensures Grows(g, g)
  {
  }

  lemma KeepOkRaise(g: Hist, voters: set<nat>, i: nat, n: Node, term: nat)
    requires LedOk(g) && AcksOk(g, voters) && KeepOk(g, i, n.log.ents, n.term)
    requires NotAhead(g, i, n.term) && term >= n.term
    ensures KeepOk(g, i, n.log.ents, term)
  {
    GrowsRefl(g);
    KeepOkGrows(g, g, voters, i, n.log.ents, n.term, term);
  }

  lemma CountVoteOk(g: Hist, voters: set<nat>, i: nat, n: Node, from: nat, accept: bool)
    requires NodeOk(g, voters, i, n) && from in voters
    requires n.role == Candidate && accept ==> (from, n.term) in g.voted && g.voted[(from, n.term)].cand == i
    requires n.role in {Candidate, PreCandidate}
    ensures NodeOk(g, voters, i, RegisterVote(n, from, accept))
  {
  }

  /** A leader may rewrite its peer records as long as they promise nothing unacknowledged. */
  lemma PeersOk(g: Hist, voters: set<nat>, i: nat, n: Node, prs: map<nat, Pr>)
    requires NodeOk(g, voters, i, n) && n.role == Leader && prs.Keys == n.prs.Keys
    requires forall j :: j in prs ==> PeerOk(g, n.(prs := prs), j)
    ensures NodeOk(g, voters, i, n.(prs := prs))
  {
  }

  lemma CommitMark(g: Hist, voters: set<nat>, i: nat, n: Node, c: nat)
    requires NodeOk(g, voters, i, n) && c <= |n.log.ents| && CommitOk(g, voters, n.log.ents, c, n.term)
    ensures NodeOk(g, voters, i, n.(log := n.log.CommitTo(c)))
  {
    var n' := n.(log := n.log.CommitTo(c));
    if n.role == Leader {
      forall j | j in n'.prs ensures PeerOk(g, n', j) { assert PeerOk(g, n, j); }
    }
  }

  /** An index of the leader's own term that a majority has reached is chosen. */
  lemma ReachedIsChosen(g: Hist, voters: set<nat>, n: Node, c: nat)
    requires n.voters == voters && (forall j :: j in n.prs <==> j in voters)
    requires n.term in g.led && g.led[n.term] == n.log.ents
    requires forall j :: j in n.prs ==> PeerOk(g, n, j)
    requires 1 <= c <= |n.log.ents| && n.log.ents[c - 1].term == n.term && QuorumReached(n.prs, voters, c)
    ensures CommitOk(g, voters, n.log.ents, c, n.term)
  {
    var reached, acked := Reached(n.prs, voters, c), AckSet(g, voters, n.term, c);
    forall q | q in reached ensures q in acked { assert PeerOk(g, n, q); }
    SubsetSize(reached, acked);
    assert Chosen(g, voters, n.term, c);
    assert CommittedBy(g, voters, n.log.ents, c, n.term, c, n.term);
  }

  /** `maybe_commit` only advances to an index a majority acknowledged in the leader's own term. */
  lemma CommitLeader(g: Hist, voters: set<nat>, i: nat, n: Node)
    requires LedOk(g) && NodeOk(g, voters, i, n) && n.role == Leader
    ensures n.WellFormed() && NodeOk(g, voters, i, MaybeCommit(n))
  {
    LocalShape(g, voters, i, n);
    var c := MaximalCommitted(n.prs, n.voters);
    if n.log.CommitsAt(c, n.term) {
      assert n.term >= 1;
      ReachedIsChosen(g, voters, n, c);
      CommitMark(g, voters, i, n, c);
    }
  }

  // ---- voting ----

  lemma LastOfLog(l: Log)
    requires l.base == 0 && l.baseTerm == 0
    ensures l.LastTerm() == LastTermOf(l.ents) && l.LastIndex() == |l.ents|
  {
  }

  /** Casting a vote for a candidate whose log is up to date. */
  lemma Grant(g: Hist, voters: set<nat>, i: nat, n: Node, cand: nat) returns (g': Hist)
    requires Local(g, voters, i, n) && cand in voters && (n.vote == cand || n.vote == INVALID_ID)
    requires (cand, n.term) in g.camp && UpToDate(g.camp[(cand, n.term)], n.log.ents)
    ensures Advance(g, g', i) && Local(g', voters, i, n.(vote := cand))
    ensures (i, n.term) in g'.voted && g'.voted[(i, n.term)].cand == cand
  {
    if n.vote == cand {
      g' := g;
      GrowsRefl(g);
      assert n.(vote := cand) == n;
    } else {
      var v := Vote(cand, n.log.ents);
      g' := WithVote(g, i, n.term, v);
      CastVote(g, voters, i, n.term, v);
      SelfGrows(g, g', voters, i, n, n.(vote := cand));
    }
  }

  /** A ballot recorded for node `i` in its own term leaves the rest of its state consistent. */
  lemma SelfGrows(g: Hist, g': Hist, voters: set<nat>, i: nat, n: Node, n': Node)
    requires Grows(g, g') && LedOk(g) && AcksOk(g, voters) && NodeOk(g, voters, i, n)
    requires n' == n.(vote := n'.vote) && g'.led == g.led && g'.wins == g.wins && g'.acked == g.acked
    requires g'.camp == g.camp
    requires BallotOk(g', i, n') && forall t :: (i, t) in g'.voted ==> t <= n.term
    ensures NodeOk(g', voters, i, n')
  {
    assert forall j: nat, t: nat :: Acked(g', j, t) == Acked(g, j, t);
    GoodLogGrows(g, g', n.log.ents, n.term, n.term);
    KeepOkGrows(g, g', voters, i, n.log.ents, n.term, n.term);
    CommitOkGrows(g, g', voters, n.log.ents, n.log.ents, n.log.committed, n.term, n.term);
    if n.role == Leader {
      forall j | j in n'.prs ensures PeerOk(g', n', j) { assert PeerOk(g, n, j); }
    }
  }

  /** Becoming a candidate: a new term, a vote for oneself, the own log on record. */
  lemma Stand(g: Hist, voters: set<nat>, i: nat, n: Node) returns (g': Hist)
    requires Local(g, voters, i, n)
    ensures var c := RegisterVote(BecomeCandidate(n), n.id, true);
            Advance(g, g', i) && Local(g', voters, i, c)
  {
    var t, es := n.term + 1, n.log.ents;
    var g1 := WithCampaign(g, i, t, es);
    BeginCampaign(g, voters, i, t, es);
    var v := Vote(i, es);
    var r := Reset(n, t);
    StandGoodLog(g, g1, voters, i, n);
    g' := WithVote(g1, i, t, v);
    CastVote(g1, voters, i, t, v);
    AdvanceTrans(g, g1, g', i);
    StandNode(g, g', voters, i, n);
  }

  lemma StandGoodLog(g: Hist, g1: Hist, voters: set<nat>, i: nat, n: Node)
    requires Grows(g, g1) && LedOk(g) && AcksOk(g, voters) && NodeOk(g, voters, i, n)
    requires forall t: nat :: Acked(g1, i, t) == Acked(g, i, t)
    ensures GoodLog(g1, n.log.ents, n.term + 1) && KeepOk(g1, i, n.log.ents, n.term + 1)
  {
    GoodLogGrows(g, g1, n.log.ents, n.term, n.term + 1);
    KeepOkGrows(g, g1, voters, i, n.log.ents, n.term, n.term + 1);
  }

  lemma StandNode(g: Hist, g': Hist, voters: set<nat>, i: nat, n: Node)
    requires Grows(g, g') && LedOk(g) && AcksOk(g, voters) && NodeOk(g, voters, i, n) && INVALID_ID !in voters
    requires g'.led == g.led && g'.wins == g.wins && g'.acked == g.acked
    requires g'.camp == g.camp[(i, n.term + 1) := n.log.ents]
    requires g'.voted == g.voted[(i, n.term + 1) := Vote(i, n.log.ents)]
    ensures NodeOk(g', voters, i, RegisterVote(BecomeCandidate(n), n.id, true))
  {
    assert forall j: nat, t: nat :: Acked(g', j, t) == Acked(g, j, t);
    StandGoodLog(g, g', voters, i, n);
    CommitOkGrows(g, g', voters, n.log.ents, n.log.ents, n.log.committed, n.term, n.term + 1);
    StandBallot(g, g', voters, i, n);
  }

  lemma StandBallot(g: Hist, g': Hist, voters: set<nat>, i: nat, n: Node)
    requires Shape(voters, i, n) && NotAhead(g, i, n.term) && INVALID_ID !in voters
    requires g'.wins == g.wins && g'.acked == g.acked
    requires g'.camp == g.camp[(i, n.term + 1) := n.log.ents]
    requires g'.voted == g.voted[(i, n.term + 1) := Vote(i, n.log.ents)]
    ensures var c := RegisterVote(BecomeCandidate(n), n.id, true);
            Shape(voters, i, c) && BallotOk(g', i, c) && NotAhead(g', i, c.term) && CandidateOk(g', voters, i, c)
  {
    assert forall t: nat :: Acked(g', i, t) == Acked(g, i, t);
  }

  // ---- leading ----

  lemma StampedLonger(n: Node, es: seq<Entry>)
    requires n.log.base == 0 && n.id in n.prs
    ensures var longer := Appended(n, es).log.ents;
            LedGrows(n.log.ents, longer, n.term) && |longer| == |n.log.ents| + |es| &&
            forall x :: |n.log.ents| <= x < |longer| ==> longer[x].index == x + 1
  {
  }

  /** The log grew at its end in the node's own term; its duties and its commit mark carry over. */
  lemma LongerLog(g: Hist, g': Hist, voters: set<nat>, i: nat, n: Node, es': seq<Entry>)
    requires Grows(g, g') && LedOk(g) && AcksOk(g, voters) && NodeOk(g, voters, i, n)
    requires LedGrows(n.log.ents, es', n.term) && n.term in g'.led && g'.led[n.term] == es'
    requires forall t: nat :: t != n.term ==> Acked(g', i, t) == Acked(g, i, t)
    requires Acked(g', i, n.term) == |es'|
    ensures KeepOk(g', i, es', n.term) && CommitOk(g', voters, es', n.log.committed, n.term)
  {
    var es := n.log.ents;
    forall t: nat, k: nat | t <= n.term && 0 < k <= Acked(g', i, t) ensures Kept(g', es', t, k, n.term) {
      if t != n.term {
        assert Kept(g, es, t, k, n.term);
        KeptLonger(g, es, es', t, k, n.term);
        KeptGrows(g, g', es', t, k, n.term, n.term);
      }
    }
    CommitOkGrows(g, g', voters, es, es', n.log.committed, n.term, n.term);
  }

  lemma KeptLonger(g: Hist, es: seq<Entry>, es': seq<Entry>, t: nat, k: nat, bound: int)
    requires Kept(g, es, t, k, bound) && Same(es, es', |es|)
    ensures Kept(g, es', t, k, bound)
  {
    if Same(g.led[t], es, k) { assert Same(g.led[t], es', k); }
  }

  /** A leader appends entries of its own term. */
  lemma Extend(g: Hist, voters: set<nat>, i: nat, n: Node, es: seq<Entry>) returns (g': Hist)
    requires Local(g, voters, i, n) && n.role == Leader
    ensures Advance(g, g', i) && Local(g', voters, i, Appended(n, es)) && Appended(n, es).role == Leader
  {
    var n' := Appended(n, es);
    StampedLonger(n, es);
    g' := WithLed(g, i, n.term, n'.log.ents);
    Lengthen(g, voters, i, n.term, n'.log.ents);
    WithLedGrows(g, i, n.term, n'.log.ents);
    LongerLog(g, g', voters, i, n, n'.log.ents);
    ExtendNode(g, g', voters, i, n, n');
  }

  lemma ExtendNode(g: Hist, g': Hist, voters: set<nat>, i: nat, n: Node, n': Node)
    requires Grows(g, g') && NodeOk(g, voters, i, n) && n.role == Leader && LedOk(g')
    requires n' == n.(log := n.log.(ents := n'.log.ents), prs := n'.prs)
    requires n'.prs == n.prs[i := n.prs[i].MaybeUpdate(|n'.log.ents|)]
    requires |n.log.ents| <= |n'.log.ents|
    requires g'.voted == g.voted && g'.camp == g.camp && g'.wins == g.wins
    requires n.term in g'.led && g'.led[n.term] == n'.log.ents
    requires forall t: nat :: t != n.term ==> Acked(g', i, t) == Acked(g, i, t)
    requires Acked(g', i, n.term) == |n'.log.ents|
    requires KeepOk(g', i, n'.log.ents, n.term) && CommitOk(g', voters, n'.log.ents, n.log.committed, n.term)
    ensures NodeOk(g', voters, i, n')
  {
    forall j | j in n'.prs ensures PeerOk(g', n', j) {
      assert PeerOk(g, n, j);
      assert Acked(g, j, n.term) <= Acked(g', j, n.term);
    }
    CommitOkLength(g', voters, n'.log.ents, n.log.committed, n.term);
    assert NotAhead(g', i, n.term) by {
      forall t: nat | Acked(g', i, t) > 0 ensures t <= n.term { if t != n.term { assert Acked(g, i, t) > 0; } }
    }
  }

  lemma CrownShape(n: Node)
    requires n.id in n.prs
    ensures var l := Appended(Enthroned(n), [EMPTY_ENTRY]);
            && l == n.(role := Leader, leaderId := n.id, votes := map[], log := l.log, prs := l.prs)
            && l.prs.Keys == n.prs.Keys
            && (forall j :: j in l.prs ==> l.prs[j].state != Snapshotting)
            && (forall j :: j in l.prs && j != n.id ==>
                  l.prs[j].matched == 0 && l.prs[j].nextIdx == n.log.LastIndex() + 1)
            && l.prs[n.id].matched == n.log.LastIndex() + 1 && l.prs[n.id].nextIdx == n.log.LastIndex() + 2
  {
  }

  lemma CrownHist(g: Hist, voters: set<nat>, i: nat, n: Node, es: seq<Entry>) returns (g': Hist)
    requires Local(g, voters, i, n) && n.role == Candidate && Elected(n)
    requires LedGrows(n.log.ents, es, n.term)
    requires forall x :: |n.log.ents| <= x < |es| ==> es[x].index == x + 1
    ensures n.term !in g.wins && g' == WithWin(g, i, n.term, Backers(n), es)
    ensures HistOk(g', voters) && Advance(g, g', i)
    ensures Acked(g', i, n.term) == |es|
    ensures forall t: nat :: t != n.term ==> Acked(g', i, t) == Acked(g, i, t)
  {
    var t, quorum := n.term, Backers(n);
    TermIsFree(g, voters, i, t, quorum);
    g' := WithWin(g, i, t, quorum, es);
    assert t >= 1;
    WinTerm(g, voters, i, t, quorum, n.log.ents, es);
    assert Acked(g, i, t) == 0;
    WithWinGrows(g, i, t, quorum, es);
  }

  /** An elected candidate takes its term and appends the empty entry. */
  lemma Crown(g: Hist, voters: set<nat>, i: nat, n: Node) returns (g': Hist)
    requires Local(g, voters, i, n) && n.role == Candidate && Elected(n)
    ensures var l := Appended(Enthroned(n), [EMPTY_ENTRY]);
            Advance(g, g', i) && Local(g', voters, i, l) && l.role == Leader
  {
    var l := Appended(Enthroned(n), [EMPTY_ENTRY]);
    CrownShape(n);
    StampedLonger(Enthroned(n), [EMPTY_ENTRY]);
    g' := CrownHist(g, voters, i, n, l.log.ents);
    LongerLog(g, g', voters, i, n, l.log.ents);
    CrownNode(g, g', voters, i, n, l);
  }

  lemma CrownNode(g: Hist, g': Hist, voters: set<nat>, i: nat, n: Node, l: Node)
    requires Grows(g, g') && NodeOk(g, voters, i, n) && LedOk(g')
    requires l.role == Leader && l.id == n.id && l.voters == n.voters && l.term == n.term && l.vote == n.vote
    requires l.log == n.log.(ents := l.log.ents) && |l.log.ents| == |n.log.ents| + 1
    requires l.prs.Keys == n.prs.Keys
    requires forall j :: j in l.prs && j != i ==> l.prs[j].matched == 0 && l.prs[j].nextIdx == |n.log.ents| + 1
    requires i in l.prs ==> l.prs[i].matched == |l.log.ents| && l.prs[i].nextIdx == |l.log.ents| + 1
    requires forall j :: j in l.prs ==> l.prs[j].state != Snapshotting
    requires g'.voted == g.voted && g'.camp == g.camp
    requires n.term in g'.wins && g'.wins[n.term].leader == i
    requires forall t :: t in g'.wins && t != n.term ==> t in g.wins && g'.wins[t] == g.wins[t]
    requires n.term in g'.led && g'.led[n.term] == l.log.ents
    requires forall t: nat :: t != n.term ==> Acked(g', i, t) == Acked(g, i, t)
    requires Acked(g', i, n.term) == |l.log.ents|
    requires KeepOk(g', i, l.log.ents, n.term) && CommitOk(g', voters, l.log.ents, n.log.committed, n.term)
    ensures NodeOk(g', voters, i, l)
  {
    forall j | j in l.prs ensures PeerOk(g', l, j) { }
    assert NotAhead(g', i, n.term) by {
      forall t: nat | Acked(g', i, t) > 0 ensures t <= n.term { if t != n.term { assert Acked(g, i, t) > 0; } }
    }
  }

  // ---- following ----

  /** The follower's log now equals the leader's up to `p`, everything before the change untouched;
      the node acknowledges `p`. */
  lemma Follow(g: Hist, voters: set<nat>, i: nat, n: Node, es': seq<Entry>, c: nat, p: nat) returns (g': Hist)
    requires Local(g, voters, i, n) && n.term in g.led && n.role in {Follower, PreCandidate}
    requires Same(es', g.led[n.term], p)
    requires es' == n.log.ents || |es'| == p
    requires forall t: nat, k: nat :: t <= n.term && 0 < k <= Acked(g, i, t) ==> Kept(g, es', t, k, n.term)
    requires n.log.committed <= c <= |es'| && CommitOk(g, voters, es', c, n.term)
    ensures Advance(g, g', i)
    ensures Local(g', voters, i, n.(log := n.log.(ents := es', committed := c)))
    ensures Acked(g', i, n.term) >= p
  {
    g' := WithAck(g, i, n.term, p);
    Acknowledge(g, voters, i, n.term, p);
    FollowGood(g, voters, n, es', p);
    FollowNode(g, g', voters, i, n, es', c, p);
  }

  lemma FollowNode(g: Hist, g': Hist, voters: set<nat>, i: nat, n: Node, es': seq<Entry>, c: nat, p: nat)
    requires g' == WithAck(g, i, n.term, p) && Grows(g, g') && LedOk(g) && AcksOk(g, voters)
    requires NodeOk(g, voters, i, n) && n.term in g.led && n.role in {Follower, PreCandidate}
    requires GoodLog(g, es', n.term) && Same(es', g.led[n.term], p)
    requires forall t: nat, k: nat :: t <= n.term && 0 < k <= Acked(g, i, t) ==> Kept(g, es', t, k, n.term)
    requires n.log.committed <= c <= |es'| && CommitOk(g, voters, es', c, n.term)
    ensures NodeOk(g', voters, i, n.(log := n.log.(ents := es', committed := c)))
    ensures Acked(g', i, n.term) >= p
  {
    var n' := n.(log := n.log.(ents := es', committed := c));
    GoodLogGrows(g, g', es', n.term, n.term);
    FollowKeeps(g, g', voters, i, n, es', p);
    CommitOkGrows(g, g', voters, es', es', c, n.term, n.term);
    assert NotAhead(g', i, n.term) by {
      forall t: nat | Acked(g', i, t) > 0 ensures t <= n.term { if t != n.term { assert Acked(g, i, t) > 0; } }
    }
  }

  lemma FollowGood(g: Hist, voters: set<nat>, n: Node, es': seq<Entry>, p: nat)
    requires LedOk(g) && n.term in g.led && GoodLog(g, n.log.ents, n.term)
    requires Same(es', g.led[n.term], p) && (es' == n.log.ents || |es'| == p)
    ensures GoodLog(g, es', n.term)
  {
    if es' != n.log.ents {
      forall x | 0 <= x < |es'| ensures GoodEntry(g, es', x, n.term) {
        assert GoodEntry(g, g.led[n.term], x, n.term);
      }
    }
  }

  lemma FollowKeeps(g: Hist, g': Hist, voters: set<nat>, i: nat, n: Node, es': seq<Entry>, p: nat)
    requires Grows(g, g') && LedOk(g) && AcksOk(g, voters) && n.term in g.led && g'.led == g.led
    requires forall t: nat, k: nat :: t <= n.term && 0 < k <= Acked(g, i, t) ==> Kept(g, es', t, k, n.term)
    requires Same(es', g.led[n.term], p)
    requires forall t: nat :: t != n.term ==> Acked(g', i, t) == Acked(g, i, t)
    requires Acked(g', i, n.term) <= Max(p, Acked(g, i, n.term))
    ensures KeepOk(g', i, es', n.term)
  {
    forall t: nat, k: nat | t <= n.term && 0 < k <= Acked(g', i, t) ensures Kept(g', es', t, k, n.term) {
      if t != n.term || k <= Acked(g, i, t) {
        assert Kept(g, es', t, k, n.term);
        KeptGrows(g, g', es', t, k, n.term, n.term);
      } else {
        assert Same(g'.led[t], es', k);
      }
    }
  }
}
