/** From every reachable state a node whose log is at least as up to date as those of a majority, none of
    them ahead in term, can be elected by messages among them alone, with or without pre-votes. */
module Elections {
  import opened RaftTypes
  import opened AbstractLog
  import opened ProgressSpec
  import opened Quorum
  import opened NodeSpec
  import opened Cluster
  import opened Traces
  import opened History
  import opened NodeSteps
  import opened StepSafety
  import opened RunProperties
  import opened Proposals
  import opened SentMessages
  import R = Replication

  // ---- up to date ----

  /** The comparison of a vote request is the one on the entries, both ways. */
  lemma UpToDateExact(es: seq<Entry>, l: Log)
    requires l.base == 0 && l.baseTerm == 0
    ensures l.IsUpToDate(|es|, LastTermOf(es)) <==> UpToDate(es, l.ents)
  {
    LastOfLog(l);
  }

  // ---- a voter ----

  ghost predicate FromOne(n: Node) { n.WellFormed() && n.log.base == 0 && n.log.baseTerm == 0 }

  /** A request, of either kind, by node `i` with log `es` for the term after `term`. */
  function Request(i: nat, j: nat, es: seq<Entry>, term: nat, pre: bool): Message {
    Message(if pre then MsgRequestPreVote else MsgRequestVote, j, i, term + 1, logTerm := LastTermOf(es), index := |es|)
  }

  function GrantOf(i: nat, j: nat, term: nat, pre: bool): Message {
    Message(if pre then MsgRequestPreVoteResponse else MsgRequestVoteResponse, i, j, term + 1)
  }

  /** Node `n` is not ahead, and the log `es` not behind its own. */
  ghost predicate Votable(n: Node, j: nat, es: seq<Entry>, term: nat) {
    FromOne(n) && n.id == j && n.term <= term && UpToDate(es, n.log.ents)
  }

  lemma GrantsPreVote(n: Node, i: nat, j: nat, es: seq<Entry>, term: nat)
    requires Votable(n, j, es, term)
    ensures Step(n, Request(i, j, es, term, true), AS_MEANT) == Done(n, {GrantOf(i, j, term, true)})
  {
    UpToDateExact(es, n.log);
  }

  lemma GrantsVote(n: Node, i: nat, j: nat, es: seq<Entry>, term: nat)
    requires Votable(n, j, es, term)
    ensures var o := Step(n, Request(i, j, es, term, false), AS_MEANT);
            o.Done? && o.node.id == j && o.node.term == term + 1 && o.out == {GrantOf(i, j, term, false)}
  {
    UpToDateExact(es, n.log);
  }

  // ---- the candidate ----

  /** A candidate that began as `base`, with the votes of `done`, not yet enough. */
  ghost predicate Standing(c: Node, base: Node, done: set<nat>, pre: bool) {
    && FromOne(c) && c.id == base.id && c.voters == base.voters && c.log == base.log
    && c.role == (if pre then PreCandidate else Candidate) && c.term == (if pre then base.term else base.term + 1)
    && c.votes.Keys == Backers(c) == done && c.id in done && !Elected(c)
  }

  /** Leader of the next term, with one empty entry more. */
  ghost predicate Won(n: Node, base: Node) {
    && n.role == Leader && n.id == base.id && n.term == base.term + 1
    && n.log.ents == base.log.ents + [Entry(EntryNormal, base.term + 1, |base.log.ents| + 1, [])]
  }

  /** What the requests of a campaign are. */
  ghost predicate Asked(out: set<Message>, base: Node, pre: bool) {
    forall j :: j in base.voters && j != base.id ==> Request(base.id, j, base.log.ents, base.term, pre) in out
  }

  ghost predicate Goes(o: Outcome, base: Node, done: set<nat>, pre: bool) {
    o.Done? && Standing(o.node, base, done, pre) && Asked(o.out, base, pre)
  }

  /** Every other voter is sent an append of the new term. */
  ghost predicate Told(out: set<Message>, base: Node) {
    forall j :: j in base.voters && j != base.id ==> exists m :: m in out && AppendTo(m, base, j)
  }

  predicate AppendTo(m: Message, base: Node, j: nat) {
    m.mtype == MsgAppend && m.from == base.id && m.to == j && m.term == base.term + 1
  }

  ghost predicate Wins(o: Outcome, base: Node) { o.Done? && Won(o.node, base) && Told(o.out, base) }

  lemma RequestsAsk(c: Node, base: Node, pre: bool)
    requires FromOne(c) && c.id == base.id && c.voters == base.voters && c.log == base.log
    ensures Asked(VoteRequests(c, if pre then MsgRequestPreVote else MsgRequestVote, base.term + 1), base, pre)
  {
    LastOfLog(c.log);
    var mtype := if pre then MsgRequestPreVote else MsgRequestVote;
    forall j | j in base.voters && j != base.id
      ensures Request(base.id, j, base.log.ents, base.term, pre) in VoteRequests(c, mtype, base.term + 1)
    {
      assert VoteRequest(c, mtype, base.term + 1, j) == Request(base.id, j, base.log.ents, base.term, pre);
    }
  }

  lemma Leads(c: Node, base: Node)
    requires FromOne(c) && c.id == base.id && c.log == base.log && c.term == base.term + 1
    ensures Won(BecomeLeader(c), base)
  {
    BecomeLeaderGains(c);
    var es := BecomeLeader(c).log.ents;
    assert Carries(es[|base.log.ents| + 0], [EMPTY_ENTRY][0]);
    assert es == base.log.ents + [es[|base.log.ents|]];
  }

  lemma Says(n: Node, j: nat)
    requires FromOne(n) && j in n.prs && 1 <= n.prs[j].nextIdx <= |n.log.ents| + 1
    requires n.prs[j].state == Probe && !n.prs[j].paused
    ensures var s := SendTo(n, j);
            && s.Sending?
            && exists m :: m in s.out && m.mtype == MsgAppend && m.from == n.id && m.to == j && m.term == n.term
  {
    var c := R.BatchIsCut(n, n.prs[j].nextIdx);
    var m := AppendMessage(n, j, n.prs[j].nextIdx, n.log.ents[c.idx..c.e]);
    assert m in SendTo(n, j).out;
  }

  lemma LeadsAndSays(c: Node, base: Node)
    requires FromOne(c) && c.id == base.id && c.log == base.log && c.term == base.term + 1 && c.voters == base.voters
    ensures Wins(Broadcast(BecomeLeader(c)), base)
  {
    Leads(c, base);
    LeadSound(c);
    var n := BecomeLeader(c);
    forall j | j in n.prs && j != n.id
      ensures SendTo(n, j).Sending?
      ensures exists m :: m in SendTo(n, j).out && AppendTo(m, base, j)
    {
      Says(n, j);
      var m :| m in SendTo(n, j).out && m.mtype == MsgAppend && m.from == n.id && m.to == j && m.term == n.term;
      assert AppendTo(m, base, j);
    }
    SaysAll(n, base);
  }

  lemma SaysAll(n: Node, base: Node)
    requires n.id == base.id && base.voters <= n.prs.Keys && Broadcast(n).Done?
    requires forall j :: j in n.prs && j != n.id ==>
               SendTo(n, j).Sending? && exists m :: m in SendTo(n, j).out && AppendTo(m, base, j)
    ensures Told(Broadcast(n).out, base)
  {
    forall j | j in base.voters && j != base.id ensures exists m :: m in Broadcast(n).out && AppendTo(m, base, j) {
      var m :| m in SendTo(n, j).out && AppendTo(m, base, j);
      assert m in Broadcast(n).out;
    }
  }

  /** Whose own vote is enough is alone. */
  lemma AloneTells(n: Node)
    requires Backers(n) == {n.id} && Elected(n) && n.id in n.voters
    ensures n.voters == {n.id}
  {
    forall j | j in n.voters ensures j == n.id {
      if j != n.id { SubsetSize({j, n.id}, n.voters); }
    }
  }

  lemma OwnVote(n: Node)
    requires n.votes == map[n.id := true]
    ensures Backers(n) == {n.id} == n.votes.Keys
  {
  }

  /** The election proper begins: won at once, or with requests to everyone else. */
  lemma Begins(b: Node, base: Node)
    requires FromOne(b) && b.id == base.id && b.voters == base.voters && b.log == base.log && b.term == base.term
    requires b.role != Leader && base.id in base.voters
    ensures var o := CampaignElection(b); Wins(o, base) || Goes(o, base, {base.id}, false)
  {
    var c := RegisterVote(BecomeCandidate(b), b.id, true);
    OwnVote(c);
    if Elected(c) {
      AloneTells(c);
      Leads(c, base);
    } else {
      RequestsAsk(c, base, false);
    }
  }

  ghost predicate NothingPending(n: Node) {
    && n.log.applied <= n.log.committed <= |n.log.ents|
    && forall x :: n.log.applied <= x < n.log.committed ==> n.log.ents[x].etype != EntryConfChange
  }

  lemma NotPending(n: Node)
    requires FromOne(n) && n.log.applied <= n.log.committed && NothingPending(n)
    ensures !PendingConfChange(n.log)
  {
  }

  lemma TimesOut(n: Node)
    requires FromOne(n) && n.role != Leader && NothingPending(n) && n.id in n.voters
    ensures var o := Perform(n, Timeout);
            Wins(o, n) || Goes(o, n, {n.id}, false) || (n.preVote && Goes(o, n, {n.id}, true))
  {
    NotPending(n);
    if n.preVote {
      var c := RegisterVote(BecomePreCandidate(n), n.id, true);
      OwnVote(c);
      if Elected(c) { Begins(c, n); } else { RequestsAsk(c, n, true); }
    } else {
      Begins(n, n);
    }
  }

  lemma OneMoreVote(c: Node, base: Node, done: set<nat>, pre: bool, j: nat)
    requires Standing(c, base, done, pre) && j !in done && !Elected(RegisterVote(c, j, true))
    ensures Standing(RegisterVote(c, j, true), base, done + {j}, pre)
  {
    var d := RegisterVote(c, j, true);
    assert Backers(d) == done + {j} == d.votes.Keys;
  }

  lemma Counts(c: Node, base: Node, done: set<nat>, pre: bool, j: nat)
    requires Standing(c, base, done, pre) && j !in done && base.id in base.voters
    ensures var o := Step(c, GrantOf(base.id, j, base.term, pre), AS_MEANT);
            || Wins(o, base)
            || (o.Done? && Standing(o.node, base, done + {j}, pre))
            || (pre && Goes(o, base, {base.id}, false))
  {
    var m, d := GrantOf(base.id, j, base.term, pre), RegisterVote(c, j, true);
    assert Step(c, m, AS_MEANT) == CountVote(c, m, AS_MEANT);
    if !Elected(d) {
      OneMoreVote(c, base, done, pre, j);
    } else if pre {
      Begins(d, base);
    } else {
      LeadsAndSays(d, base);
    }
  }

  // ---- the cluster ----

  /** A step of one of `backers`. */
  ghost predicate BackerStep(s: State, s': State, backers: set<nat>) {
    exists k, a :: k in backers && NextBy(s, s', k, a)
  }

  ghost function BackerMoves(backers: set<nat>): Moves { (s: State, s': State) => BackerStep(s, s', backers) }

  /** None of `backers` is beyond the term that is being voted on. */
  ghost predicate NoneAhead(s: State, base: Node, backers: set<nat>) {
    forall j :: j in backers ==> j in s.nodes && s.nodes[j].term <= base.term + 1
  }

  /** `base` stands with the votes of `done`. Those of `backers` that have not answered can still vote for
      it, and have been asked; after pre-votes all can still vote. */
  ghost predicate Canvass(s: State, base: Node, backers: set<nat>, done: set<nat>, pre: bool) {
    && base.id in s.nodes && Standing(s.nodes[base.id], base, done, pre) && done <= backers
    && NoneAhead(s, base, backers)
    && (forall j :: j in backers - done ==> Request(base.id, j, base.log.ents, base.term, pre) in s.sent)
    && forall j :: j in backers && j != base.id && (pre || j !in done) ==>
         j in s.nodes && Votable(s.nodes[j], j, base.log.ents, base.term)
  }

  ghost predicate WonIn(s: State, base: Node) {
    base.id in s.nodes && Won(s.nodes[base.id], base) && Told(s.sent, base)
  }

  lemma Delivers(s: State, i: nat, m: Message, n: Node, out: set<Message>, backers: set<nat>) returns (s': State)
    requires i in s.nodes && i in backers && s.nodes[i].WellFormed() && m in s.sent && m.to == i == s.nodes[i].id
    requires Step(s.nodes[i], m, AS_MEANT) == Done(n, out)
    ensures s' == State(s.nodes[i := n], s.sent + out) && BackerMoves(backers)(s, s')
  {
    s' := State(s.nodes[i := n], s.sent + out);
    assert NextBy(s, s', i, Deliver(m, AS_MEANT));
  }

  /** Backer `j` is asked, and grants. */
  lemma Grants(s: State, base: Node, backers: set<nat>, done: set<nat>, pre: bool, j: nat) returns (s': State)
    requires Canvass(s, base, backers, done, pre) && j in backers - done
    ensures BackerMoves(backers)(s, s') && s.sent <= s'.sent && GrantOf(base.id, j, base.term, pre) in s'.sent
    ensures j in s'.nodes && s'.nodes == s.nodes[j := s'.nodes[j]] && (pre ==> s'.nodes == s.nodes)
    ensures s'.nodes[j].term <= base.term + 1
  {
    var m := Request(base.id, j, base.log.ents, base.term, pre);
    if pre {
      GrantsPreVote(s.nodes[j], base.id, j, base.log.ents, base.term);
      s' := Delivers(s, j, m, s.nodes[j], {GrantOf(base.id, j, base.term, true)}, backers);
    } else {
      GrantsVote(s.nodes[j], base.id, j, base.log.ents, base.term);
      var o := Step(s.nodes[j], m, AS_MEANT);
      s' := Delivers(s, j, m, o.node, o.out, backers);
    }
  }

  /** No other node moved, but for the one that was asked. */
  ghost predicate OthersSame(s: State, s': State, base: Node, j: nat, pre: bool) {
    forall k :: k in s.nodes && k != base.id && (pre || k != j) ==> k in s'.nodes && s'.nodes[k] == s.nodes[k]
  }

  lemma CanvassGoesOn(s: State, s': State, base: Node, backers: set<nat>, done: set<nat>, pre: bool, j: nat)
    requires Canvass(s, base, backers, done, pre) && j in backers - done && s.sent <= s'.sent
    requires base.id in s'.nodes && Standing(s'.nodes[base.id], base, done + {j}, pre)
    requires OthersSame(s, s', base, j, pre) && NoneAhead(s', base, backers)
    ensures Canvass(s', base, backers, done + {j}, pre)
  {
  }

  /** After a won pre-election everybody is asked anew. */
  lemma CanvassAnew(s: State, s': State, base: Node, backers: set<nat>, done: set<nat>, j: nat, out: set<Message>)
    requires Canvass(s, base, backers, done, true) && backers <= base.voters && base.id in backers
    requires base.id in s'.nodes && Standing(s'.nodes[base.id], base, {base.id}, false)
    requires Asked(out, base, false) && out <= s'.sent
    requires OthersSame(s, s', base, j, true)
    ensures Canvass(s', base, backers, {base.id}, false)
  {
  }

  /** What counting a grant comes to. */
  ghost predicate CountedTo(o: Outcome, base: Node, done: set<nat>, pre: bool) {
    || Wins(o, base)
    || (o.Done? && Standing(o.node, base, done, pre))
    || (pre && Goes(o, base, {base.id}, false))
  }

  lemma NoneAheadStill(s: State, m: State, s': State, base: Node, backers: set<nat>, done: set<nat>, pre: bool,
                       j: nat, o: Outcome)
    requires NoneAhead(s, base, backers) && j in m.nodes && m.nodes == s.nodes[j := m.nodes[j]]
    requires m.nodes[j].term <= base.term + 1 && base.id in m.nodes && CountedTo(o, base, done, pre)
    requires s'.nodes == m.nodes[base.id := o.node]
    ensures NoneAhead(s', base, backers)
  {
    forall k | k in backers ensures k in s'.nodes && s'.nodes[k].term <= base.term + 1 { assert k in s.nodes; }
  }

  lemma OthersSameAfter(s: State, m: State, s': State, base: Node, j: nat, pre: bool)
    requires j in m.nodes && m.nodes == s.nodes[j := m.nodes[j]] && (pre ==> m.nodes == s.nodes)
    requires base.id in s'.nodes && s'.nodes == m.nodes[base.id := s'.nodes[base.id]]
    ensures OthersSame(s, s', base, j, pre)
  {
  }

  /** Won, or one vote more, or, with enough pre-votes, the election proper. */
  ghost predicate Onward(s: State, base: Node, backers: set<nat>, done: set<nat>, pre: bool) {
    || WonIn(s, base) || Canvass(s, base, backers, done, pre)
    || (pre && Canvass(s, base, backers, {base.id}, false))
  }

  lemma WonThere(o: Outcome, base: Node, s': State)
    requires Wins(o, base) && base.id in s'.nodes && s'.nodes[base.id] == o.node && o.out <= s'.sent
    ensures WonIn(s', base)
  {
  }

  lemma CanvassAfter(s: State, m: State, s': State, base: Node, backers: set<nat>, done: set<nat>, pre: bool,
                     j: nat, o: Outcome)
    requires Canvass(s, base, backers, done, pre) && j in backers - done && s.sent <= s'.sent
    requires backers <= base.voters && base.id in backers
    requires j in m.nodes && m.nodes == s.nodes[j := m.nodes[j]] && (pre ==> m.nodes == s.nodes)
    requires CountedTo(o, base, done + {j}, pre) && s'.nodes == m.nodes[base.id := o.node] && o.out <= s'.sent
    requires NoneAhead(s', base, backers)
    ensures Onward(s', base, backers, done + {j}, pre)
  {
    OthersSameAfter(s, m, s', base, j, pre);
    if Standing(o.node, base, done + {j}, pre) {
      CanvassGoesOn(s, s', base, backers, done, pre, j);
    } else if Wins(o, base) {
      WonThere(o, base, s');
    } else {
      CanvassAnew(s, s', base, backers, done, j, o.out);
    }
  }

  /** The candidate counts the grant. */
  lemma CountsGrant(s: State, m: State, base: Node, backers: set<nat>, done: set<nat>, pre: bool, j: nat)
    returns (s': State)
    requires Canvass(s, base, backers, done, pre) && j in backers - done && s.sent <= m.sent
    requires backers <= base.voters && base.id in backers && GrantOf(base.id, j, base.term, pre) in m.sent
    requires j in m.nodes && m.nodes == s.nodes[j := m.nodes[j]] && (pre ==> m.nodes == s.nodes)
    requires m.nodes[j].term <= base.term + 1
    ensures NoneAhead(s', base, backers)
    ensures BackerMoves(backers)(m, s') && Onward(s', base, backers, done + {j}, pre)
  {
    var o;
    o, s' := CountsIn(m, base, backers, done, pre, j);
    NoneAheadStill(s, m, s', base, backers, done + {j}, pre, j, o);
    CanvassAfter(s, m, s', base, backers, done, pre, j, o);
  }

  lemma CountsIn(m: State, base: Node, backers: set<nat>, done: set<nat>, pre: bool, j: nat)
    returns (o: Outcome, s': State)
    requires base.id in m.nodes && Standing(m.nodes[base.id], base, done, pre) && j !in done
    requires base.id in backers && base.id in base.voters && GrantOf(base.id, j, base.term, pre) in m.sent
    ensures CountedTo(o, base, done + {j}, pre) && BackerMoves(backers)(m, s')
    ensures o.Done? && s' == State(m.nodes[base.id := o.node], m.sent + o.out)
  {
    Counts(m.nodes[base.id], base, done, pre, j);
    o := Step(m.nodes[base.id], GrantOf(base.id, j, base.term, pre), AS_MEANT);
    s' := Delivers(m, base.id, GrantOf(base.id, j, base.term, pre), o.node, o.out, backers);
  }

  lemma OneLeft(c: Node, base: Node, backers: set<nat>, done: set<nat>, pre: bool) returns (j: nat)
    requires Standing(c, base, done, pre) && done <= backers && |backers| >= Majority(|base.voters|)
    ensures j in backers - done
  {
    assert done != backers;
    j :| j in backers && j !in done;
  }

  lemma OneRound(s: State, base: Node, backers: set<nat>, done: set<nat>, pre: bool, j: nat)
    returns (t: seq<State>, s': State)
    requires Canvass(s, base, backers, done, pre) && backers <= base.voters && base.id in backers
    requires j in backers - done
    ensures Trace(t, BackerMoves(backers), s, s') && NoneAhead(s', base, backers)
    ensures Onward(s', base, backers, done + {j}, pre)
  {
    var m := Grants(s, base, backers, done, pre, j);
    s' := CountsGrant(s, m, base, backers, done, pre, j);
    TraceOne(BackerMoves(backers), s, m);
    t := TraceMore([s, m], BackerMoves(backers), s, m, s');
  }

  lemma {:induction false} Canvassed(s: State, base: Node, backers: set<nat>, done: set<nat>, pre: bool)
    returns (t: seq<State>, s': State)
    requires Canvass(s, base, backers, done, pre) && backers <= base.voters && base.id in backers
    requires |backers| >= Majority(|base.voters|)
    ensures Trace(t, BackerMoves(backers), s, s') && WonIn(s', base) && NoneAhead(s', base, backers)
    decreases pre, backers - done
  {
    var j := OneLeft(s.nodes[base.id], base, backers, done, pre);
    t, s' := OneRound(s, base, backers, done, pre, j);
    if !WonIn(s', base) {
      var m, u := s', t;
      if Canvass(m, base, backers, done + {j}, pre) {
        t, s' := Canvassed(m, base, backers, done + {j}, pre);
      } else {
        t, s' := Canvassed(m, base, backers, {base.id}, false);
      }
      t := TraceJoin(u, t, BackerMoves(backers), s, m, s');
    }
  }

  /** Node `i` may be elected by `backers`: none of them is ahead of it in term or log, and it has no
      configuration change to apply first. */
  ghost predicate Electable(s: State, i: nat, backers: set<nat>) {
    && i in s.nodes && i in backers && s.nodes[i].role != Leader && NothingPending(s.nodes[i])
    && forall j :: j in backers && j != i ==>
         && j in s.nodes && s.nodes[j].term <= s.nodes[i].term
         && UpToDate(s.nodes[i].log.ents, s.nodes[j].log.ents)
  }

  lemma CanvassBegins(s: State, s': State, i: nat, backers: set<nat>, pre: bool, out: set<Message>)
    requires Electable(s, i, backers) && Healthy(s) && backers <= s.nodes[i].voters && i in s'.nodes
    requires s'.nodes == s.nodes[i := s'.nodes[i]] && out <= s'.sent
    requires Standing(s'.nodes[i], s.nodes[i], {i}, pre) && Asked(out, s.nodes[i], pre)
    ensures Canvass(s', s.nodes[i], backers, {i}, pre)
  {
  }

  /** How a campaign begins: won at once, or with requests to everyone else. */
  ghost predicate SetsOut(o: Outcome, n: Node) {
    && CountedTo(o, n, {n.id}, true) && o.Done?
    && (Standing(o.node, n, {n.id}, true) ==> Asked(o.out, n, true))
  }

  lemma TimeoutSetsOut(n: Node)
    requires FromOne(n) && n.role != Leader && NothingPending(n) && n.id in n.voters
    ensures SetsOut(Perform(n, Timeout), n)
  {
    TimesOut(n);
    GoesOneWay(Perform(n, Timeout), n);
  }

  lemma GoesOneWay(o: Outcome, n: Node)
    requires Wins(o, n) || Goes(o, n, {n.id}, false) || Goes(o, n, {n.id}, true)
    ensures SetsOut(o, n)
  {
  }

  lemma StartsWith(s: State, s': State, i: nat, backers: set<nat>, o: Outcome)
    requires Electable(s, i, backers) && Healthy(s) && backers <= s.nodes[i].voters
    requires SetsOut(o, s.nodes[i]) && s'.nodes == s.nodes[i := o.node] && s'.sent == s.sent + o.out
    ensures NoneAhead(s', s.nodes[i], backers)
    ensures WonIn(s', s.nodes[i]) || Canvass(s', s.nodes[i], backers, {i}, false)
         || Canvass(s', s.nodes[i], backers, {i}, true)
  {
    if Goes(o, s.nodes[i], {i}, false) {
      CanvassBegins(s, s', i, backers, false, o.out);
    } else if Wins(o, s.nodes[i]) {
      WonThere(o, s.nodes[i], s');
    } else {
      CanvassBegins(s, s', i, backers, true, o.out);
    }
  }

  lemma Starts(s: State, i: nat, backers: set<nat>) returns (s': State)
    requires Electable(s, i, backers) && Healthy(s) && backers <= s.nodes[i].voters
    ensures BackerMoves(backers)(s, s') && NoneAhead(s', s.nodes[i], backers)
    ensures WonIn(s', s.nodes[i]) || Canvass(s', s.nodes[i], backers, {i}, false)
         || Canvass(s', s.nodes[i], backers, {i}, true)
  {
    TimeoutSetsOut(s.nodes[i]);
    var o := Perform(s.nodes[i], Timeout);
    s' := State(s.nodes[i := o.node], s.sent + o.out);
    assert NextBy(s, s', i, Timeout);
    StartsWith(s, s', i, backers, o);
  }

  lemma Elects(s: State, i: nat, backers: set<nat>) returns (t: seq<State>, s': State)
    requires Electable(s, i, backers) && Healthy(s) && backers <= s.nodes[i].voters
    requires |backers| >= Majority(|s.nodes[i].voters|)
    ensures Trace(t, BackerMoves(backers), s, s') && WonIn(s', s.nodes[i]) && NoneAhead(s', s.nodes[i], backers)
  {
    var m := Starts(s, i, backers);
    TraceOne(BackerMoves(backers), s, m);
    t, s' := [s, m], m;
    if !WonIn(m, s.nodes[i]) {
      var u;
      if Canvass(m, s.nodes[i], backers, {i}, false) {
        u, s' := Canvassed(m, s.nodes[i], backers, {i}, false);
      } else {
        u, s' := Canvassed(m, s.nodes[i], backers, {i}, true);
      }
      t := TraceJoin([s, m], u, BackerMoves(backers), s, m, s');
    }
  }

  // ---- from every reachable state ----

  /** The nodes outside `backers` are as they were. */
  ghost predicate Rest(s: State, s': State, backers: set<nat>) {
    s'.nodes.Keys == s.nodes.Keys && forall k :: k in s.nodes && k !in backers ==> s'.nodes[k] == s.nodes[k]
  }

  ghost function RestOf(s: State, backers: set<nat>): State -> bool { (x: State) => Rest(s, x, backers) }

  lemma StepRests(s: State, x: State, y: State, backers: set<nat>)
    requires BackerMoves(backers)(x, y) && Rest(s, x, backers)
    ensures Rest(s, y, backers)
  {
  }

  lemma OthersRest(t: seq<State>, s: State, s': State, backers: set<nat>)
    requires Trace(t, BackerMoves(backers), s, s')
    ensures Rest(s, s', backers)
  {
    forall x, y | BackerMoves(backers)(x, y) && RestOf(s, backers)(x) ensures RestOf(s, backers)(y) {
      StepRests(s, x, y, backers);
    }
    TraceKeeps(t, BackerMoves(backers), RestOf(s, backers), |t| - 1);
  }

  lemma BackersMove(backers: set<nat>)
    ensures forall s, s' :: BackerMoves(backers)(s, s') ==> AnyMove()(s, s')
  {
    forall s, s' | BackerMoves(backers)(s, s') ensures AnyMove()(s, s') {
      var k, a :| k in backers && NextBy(s, s', k, a);
      assert Next(s, s');
    }
  }

  /** `i` was elected, only `backers` moved, and none of them is ahead of it now. */
  ghost predicate ElectedBy(s: State, s': State, i: nat, backers: set<nat>) {
    i in s.nodes && WonIn(s', s.nodes[i]) && Rest(s, s', backers) && NoneAhead(s', s.nodes[i], backers)
  }

  /** They are a majority. */
  ghost predicate Enough(s: State, i: nat, backers: set<nat>) {
    Electable(s, i, backers) && backers <= s.nodes[i].voters && |backers| >= Majority(|s.nodes[i].voters|)
  }

  lemma ElectsAlone(s: State, i: nat, backers: set<nat>) returns (t: seq<State>, s': State)
    requires Enough(s, i, backers) && Healthy(s)
    ensures Trace(t, BackerMoves(backers), s, s') && ElectedBy(s, s', i, backers)
  {
    t, s' := Elects(s, i, backers);
    OthersRest(t, s, s', backers);
  }

  /** Elections can be won: in every reachable state a node that no member of some majority is ahead of, in
      term or in log, can be elected to the next term by messages among that majority alone, whatever it
      takes: pre-votes if the node asks for them, votes, and the word to everyone. Its log is the old one
      and the empty entry of its term. */
  lemma ReachableElects(r: Run, voters: set<nat>, s: State, i: nat, backers: set<nat>) returns (r': Run, s': State)
    requires EndsIn(voters)(r, s) && Enough(s, i, backers)
    ensures EndsIn(voters)(r', s') && r <= r' && ElectedBy(s, s', i, backers)
  {
    EndsHealthy(r, voters, s);
    BackersMove(backers);
    var t;
    t, s' := ElectsAlone(s, i, backers);
    r' := EndsLater(r, voters, s, t, BackerMoves(backers), s');
  }
}
