/** From every reachable state a leader can bring a majority of peers that are not ahead of it to hold and
    to commit its whole log, by exchanging messages with them alone. */
module CommitRuns {
  import opened RaftTypes
  import opened AbstractLog
  import opened ProgressSpec
  import opened Quorum
  import opened NodeSpec
  import opened LogProperties
  import opened Replication
  import opened Cluster
  import opened Traces
  import opened StepSafety
  import opened RunProperties
  import opened ReplicationRuns
  import opened SentMessages
  import opened Leading

  /** `i` leads in `s`, and the nodes of `peers` are other voters that are not ahead of it. */
  ghost predicate LeaderOf(s: State, i: nat, peers: set<nat>) {
    && i in s.nodes && i !in peers && s.nodes[i].role == Leader
    && forall j :: j in peers ==> j in s.nodes && j in s.nodes[i].prs && s.nodes[j].term <= s.nodes[i].term
  }

  /** From `s` to `s'` only leader `i` and the nodes of `peers` moved; the leader kept term, entries and the
      records of all others. */
  ghost predicate Worked(s: State, s': State, i: nat, peers: set<nat>) {
    && i in s.nodes && s'.nodes.Keys == s.nodes.Keys
    && (forall k :: k in s.nodes && k != i && k !in peers ==> s'.nodes[k] == s.nodes[k])
    && s'.nodes[i].role == s.nodes[i].role && s'.nodes[i].term == s.nodes[i].term
    && s'.nodes[i].log.ents == s.nodes[i].log.ents && s'.nodes[i].prs.Keys == s.nodes[i].prs.Keys
    && forall k :: k in s.nodes[i].prs && k !in peers ==> s'.nodes[i].prs[k] == s.nodes[i].prs[k]
  }

  lemma WorkedOn(a: State, b: State, c: State, i: nat, p: set<nat>, q: set<nat>)
    requires Worked(a, b, i, p) && Worked(b, c, i, q)
    ensures Worked(a, c, i, p + q)
  {
  }

  // ---- what is known of the last state ----

  lemma EndsLinked(r: Run, voters: set<nat>, s: State, i: nat, j: nat)
    requires EndsIn(voters)(r, s) && LeaderOf(s, i, {j}) && s.nodes[i].prs[j].state == Probe
    ensures Linked(PairAt(s, i, j))
  {
    EndsIs(r, voters, s);
    assert j in {j};
    ReachableLinked(r, voters, |r| - 1, i, j);
  }

  lemma EndsReady(r: Run, voters: set<nat>, s: State, i: nat, j: nat)
    requires EndsIn(voters)(r, s) && LeaderOf(s, i, {j}) && s.nodes[i].prs[j].state == Probe
    ensures Ready(s, i, j) && s.nodes[j].log.base == 0
  {
    EndsLinked(r, voters, s, i, j);
    EndsHealthy(r, voters, s);
  }

  /** What a leader of a run has counted, it has committed. */
  ghost predicate Counted(n: Node, i: nat, voters: set<nat>) {
    n.id == i && n.voters == voters && n.WellFormed() && n.log.base == 0 && OwnMarks(n) && CommitsAll(n)
  }

  lemma EndsCounted(r: Run, voters: set<nat>, s: State, i: nat)
    requires EndsIn(voters)(r, s) && i in s.nodes && s.nodes[i].role == Leader
    ensures Counted(s.nodes[i], i, voters)
  {
    EndsIs(r, voters, s);
    AlwaysLead(r, voters, |r| - 1);
    LogStartsAtOne(r, voters, |r| - 1, i);
    assert Leads(s.nodes[i]);
  }

  // ---- one peer ----

  /** The leader starts to probe a peer, from what is matched on. */
  lemma Probes(s: State, i: nat, j: nat) returns (s': State)
    requires LeaderOf(s, i, {j}) && Healthy(s)
    ensures Next(s, s') && LeaderOf(s', i, {j}) && s'.nodes[j] == s.nodes[j] && Worked(s, s', i, {j})
    ensures s'.nodes[i] == s.nodes[i].(prs := s.nodes[i].prs[j := s.nodes[i].prs[j].BecomeProbe()])
  {
    var n := s.nodes[i].(prs := s.nodes[i].prs[j := s.nodes[i].prs[j].BecomeProbe()]);
    s' := State(s.nodes[i := n], s.sent + {});
    assert NextBy(s, s', i, Tune(j, TuneProbe));
  }

  lemma StartsProbing(r: Run, voters: set<nat>, s: State, i: nat, j: nat) returns (r': Run, s': State)
    requires EndsIn(voters)(r, s) && LeaderOf(s, i, {j})
    ensures EndsIn(voters)(r', s') && r <= r' && Worked(s, s', i, {j})
    ensures Ready(s', i, j) && s'.nodes[j] == s.nodes[j] && s'.nodes[j].log.base == 0
    ensures s'.nodes[i] == s.nodes[i].(prs := s.nodes[i].prs[j := s.nodes[i].prs[j].BecomeProbe()])
  {
    EndsHealthy(r, voters, s);
    s' := Probes(s, i, j);
    r' := EndsMore(r, voters, s, s');
    EndsReady(r', voters, s', i, j);
  }

  lemma MovedWorked(s: State, s': State, i: nat, j: nat)
    requires Ready(s, i, j) && Ready(s', i, j) && Moved(s, s', i, j)
    ensures Worked(s, s', i, {j}) && LeaderOf(s', i, {j})
  {
  }

  lemma RoundsAreMoves(i: nat, j: nat)
    ensures forall s, s' :: RoundMoves(i, j)(s, s') ==> AnyMove()(s, s')
  {
    forall s, s' | RoundMoves(i, j)(s, s') ensures AnyMove()(s, s') { RoundIsNext(s, s', i, j); }
  }

  /** Rounds of probing bring one peer up. */
  lemma Teaches(r: Run, voters: set<nat>, s: State, i: nat, j: nat) returns (r': Run, s': State)
    requires EndsIn(voters)(r, s) && LeaderOf(s, i, {j})
    ensures EndsIn(voters)(r', s') && r <= r' && Worked(s, s', i, {j}) && LeaderOf(s', i, {j})
    ensures s'.nodes[i].prs[j].matched == |s.nodes[i].log.ents|
  {
    var p, m, t;
    p, m := StartsProbing(r, voters, s, i, j);
    t, s' := RoundsTrace(m, i, j);
    CaughtUpBy(m, s', i, j);
    MovedWorked(m, s', i, j);
    WorkedOn(s, m, s', i, {j}, {j});
    RoundsAreMoves(i, j);
    r' := EndsLater(p, voters, m, t, RoundMoves(i, j), s');
  }

  // ---- all of them ----

  lemma StillLeads(s: State, s': State, i: nat, peers: set<nat>, done: set<nat>)
    requires LeaderOf(s, i, peers) && Worked(s, s', i, done) && peers !! done
    ensures LeaderOf(s', i, peers)
  {
  }

  /** Record and node of a peer that does not take part stay. */
  lemma StaysTaught(s: State, s': State, i: nat, j: nat, peers: set<nat>)
    requires LeaderOf(s, i, {j}) && Worked(s, s', i, peers) && j !in peers
    ensures LeaderOf(s', i, {j}) && s'.nodes[i].prs[j] == s.nodes[i].prs[j] && s'.nodes[j] == s.nodes[j]
  {
  }

  /** All of `peers` have matched the leader's whole log. */
  ghost predicate Taught(s: State, i: nat, peers: set<nat>) {
    LeaderOf(s, i, peers) && forall j :: j in peers ==> s.nodes[i].prs[j].matched == |s.nodes[i].log.ents|
  }

  ghost predicate TaughtBy(s: State, s': State, i: nat, peers: set<nat>) {
    Worked(s, s', i, peers) && Taught(s', i, peers)
  }

  lemma TaughtJoin(s: State, s': State, i: nat, j: nat, peers: set<nat>)
    requires Taught(s, i, {j}) && TaughtBy(s, s', i, peers) && j !in peers
    ensures Taught(s', i, peers + {j})
  {
    StaysTaught(s, s', i, j, peers);
  }

  lemma AllTaught(s: State, m: State, s': State, i: nat, j: nat, peers: set<nat>)
    requires TaughtBy(s, m, i, {j}) && TaughtBy(m, s', i, peers - {j}) && j in peers
    ensures TaughtBy(s, s', i, peers)
  {
    TaughtJoin(m, s', i, j, peers - {j});
    WorkedOn(s, m, s', i, {j}, peers - {j});
    assert {j} + (peers - {j}) == peers == peers - {j} + {j};
  }

  lemma OthersWait(s: State, s': State, i: nat, j: nat, peers: set<nat>)
    requires LeaderOf(s, i, peers) && TaughtBy(s, s', i, {j}) && j in peers
    ensures LeaderOf(s', i, peers - {j})
  {
  }

  lemma TeachesOne(r: Run, voters: set<nat>, s: State, i: nat, j: nat, peers: set<nat>) returns (r': Run, s': State)
    requires EndsIn(voters)(r, s) && LeaderOf(s, i, peers) && j in peers
    ensures EndsIn(voters)(r', s') && r <= r' && TaughtBy(s, s', i, {j})
  {
    OneOf(s, i, j, peers);
    r', s' := Teaches(r, voters, s, i, j);
  }

  lemma OneOf(s: State, i: nat, j: nat, peers: set<nat>)
    requires LeaderOf(s, i, peers) && j in peers
    ensures LeaderOf(s, i, {j})
  {
  }

  lemma {:induction false} TeachesAll(r: Run, voters: set<nat>, s: State, i: nat, peers: set<nat>)
    returns (r': Run, s': State)
    requires EndsIn(voters)(r, s) && LeaderOf(s, i, peers)
    ensures EndsIn(voters)(r', s') && r <= r' && TaughtBy(s, s', i, peers)
    decreases peers
  {
    if peers == {} {
      r', s' := r, s;
    } else {
      var j :| j in peers;
      var p, m := TeachesOne(r, voters, s, i, j, peers);
      OthersWait(s, m, i, j, peers);
      r', s' := TeachesAll(p, voters, m, i, peers - {j});
      AllTaught(s, m, s', i, j, peers);
    }
  }

  ghost predicate Quorate(voters: set<nat>, i: nat, peers: set<nat>) {
    peers + {i} <= voters && |peers + {i}| >= Majority(|voters|)
  }

  lemma MajorityCommits(s: State, i: nat, voters: set<nat>, peers: set<nat>)
    requires Taught(s, i, peers) && Counted(s.nodes[i], i, voters) && Quorate(voters, i, peers)
    ensures s.nodes[i].log.committed == |s.nodes[i].log.ents|
  {
    var n := s.nodes[i];
    SubsetSize(peers + {i}, Reached(n.prs, voters, |n.log.ents|));
    assert MayCommit(n, |n.log.ents|);
  }

  /** A leader whose whole log a majority has matched has committed it. */
  lemma AllCommitted(r: Run, voters: set<nat>, s: State, i: nat, peers: set<nat>)
    requires EndsIn(voters)(r, s) && Taught(s, i, peers) && Quorate(voters, i, peers)
    ensures s.nodes[i].log.committed == |s.nodes[i].log.ents|
  {
    EndsCounted(r, voters, s, i);
    MajorityCommits(s, i, voters, peers);
  }

  // ---- telling them ----

  /** Peer `j` holds the leader's whole log and has committed it. */
  ghost predicate Informed(s: State, i: nat, j: nat) {
    && i in s.nodes && j in s.nodes
    && s.nodes[i].log.ents <= s.nodes[j].log.ents && s.nodes[j].log.committed == |s.nodes[i].log.ents|
  }

  ghost predicate AllInformed(s: State, i: nat, peers: set<nat>) { forall j :: j in peers ==> Informed(s, i, j) }

  /** An empty append right behind a matched log takes the whole commit mark along. */
  lemma MarkTravels(p: Pair) returns (q: Pair)
    requires Linked(p) && !p.Peer().paused && p.follower.log.base == 0
    requires p.Peer().matched == |p.leader.log.ents| == p.Peer().nextIdx - 1 == p.leader.log.committed
    ensures Exchange(p, q) && Linked(q) && q.leader == p.leader.(log := q.leader.log, prs := q.leader.prs)
    ensures q.follower.id == p.follower.id && q.leader.prs == p.leader.prs[p.follower.id := q.Peer()]
    ensures q.leader.log.ents == p.leader.log.ents && q.Peer().matched == |p.leader.log.ents|
    ensures q.follower.log.committed == |p.leader.log.ents| && p.leader.log.ents <= q.follower.log.ents
    ensures q.follower.log.base == 0
  {
    var c;
    if WillReject(p) { NeverRejectsHeld(p, p.Peer().nextIdx - 1); }
    q, c := ExchangeProgress(p);
  }

  lemma ExchangeWorked(s: State, s': State, i: nat, j: nat, q: Pair)
    requires Ready(s, i, j) && s'.nodes == s.nodes[i := q.leader][j := q.follower] && Linked(q)
    requires q.leader == s.nodes[i].(log := q.leader.log, prs := q.leader.prs) && q.follower.id == j
    requires q.leader.prs == s.nodes[i].prs[j := q.Peer()] && q.leader.log.ents == s.nodes[i].log.ents
    requires q.Peer().matched == |s.nodes[i].log.ents|
    ensures TaughtBy(s, s', i, {j})
  {
  }

  lemma TellsTrace(s: State, i: nat, j: nat) returns (t: seq<State>, s': State)
    requires Ready(s, i, j) && s.nodes[j].log.base == 0 && !s.nodes[i].prs[j].paused
    requires var n := s.nodes[i];
             n.prs[j].matched == |n.log.ents| == n.prs[j].nextIdx - 1 == n.log.committed
    ensures Trace(t, RoundMoves(i, j), s, s') && TaughtBy(s, s', i, {j}) && Informed(s', i, j)
  {
    var q := MarkTravels(PairAt(s, i, j));
    t, s' := ExchangeTrace(s, i, j, q);
    ExchangeWorked(s, s', i, j, q);
  }

  lemma Tells(r: Run, voters: set<nat>, s: State, i: nat, j: nat) returns (r': Run, s': State)
    requires EndsIn(voters)(r, s) && Taught(s, i, {j}) && s.nodes[i].log.committed == |s.nodes[i].log.ents|
    ensures EndsIn(voters)(r', s') && r <= r' && TaughtBy(s, s', i, {j}) && Informed(s', i, j)
  {
    var p, m, t;
    ProbesFrom(s, i, j);
    p, m := StartsProbing(r, voters, s, i, j);
    t, s' := TellsTrace(m, i, j);
    WorkedOn(s, m, s', i, {j}, {j});
    RoundsAreMoves(i, j);
    r' := EndsLater(p, voters, m, t, RoundMoves(i, j), s');
  }

  lemma ProbesFrom(s: State, i: nat, j: nat)
    requires Taught(s, i, {j})
    ensures j in s.nodes[i].prs && s.nodes[i].prs[j].matched == |s.nodes[i].log.ents|
  {
    assert j in {j};
  }

  /** All of `peers` are taught, and those of `done` informed. */
  ghost predicate Telling(s: State, i: nat, peers: set<nat>, done: set<nat>) {
    Taught(s, i, peers) && done <= peers && AllInformed(s, i, done)
  }

  ghost predicate ToldBy(s: State, s': State, i: nat, peers: set<nat>, done: set<nat>) {
    Worked(s, s', i, peers) && Telling(s', i, peers, done)
  }

  lemma AllStayTaught(s: State, s': State, i: nat, j: nat, peers: set<nat>)
    requires Taught(s, i, peers) && TaughtBy(s, s', i, {j}) && j in peers
    ensures Taught(s', i, peers) && Worked(s, s', i, peers)
  {
    forall x | x in peers
      ensures x in s'.nodes && x in s'.nodes[i].prs && s'.nodes[x].term <= s'.nodes[i].term
      ensures s'.nodes[i].prs[x].matched == |s'.nodes[i].log.ents|
    {
      if x == j { assert j in {j}; } else { assert x !in {j}; }
    }
  }

  lemma StaysInformed(s: State, s': State, i: nat, j: nat, x: nat)
    requires Worked(s, s', i, {j}) && Informed(s, i, x) && x != j && x != i
    ensures Informed(s', i, x)
  {
  }

  lemma AllStayInformed(s: State, s': State, i: nat, j: nat, peers: set<nat>, done: set<nat>)
    requires Telling(s, i, peers, done) && TaughtBy(s, s', i, {j}) && j in peers && j !in done
    requires Informed(s', i, j)
    ensures ToldBy(s, s', i, peers, done + {j})
  {
    AllStayTaught(s, s', i, j, peers);
    forall x | x in done + {j} ensures Informed(s', i, x) {
      if x != j { StaysInformed(s, s', i, j, x); }
    }
  }

  lemma TellsOne(r: Run, voters: set<nat>, s: State, i: nat, j: nat, peers: set<nat>, done: set<nat>)
    returns (r': Run, s': State)
    requires EndsIn(voters)(r, s) && Quorate(voters, i, peers) && Telling(s, i, peers, done)
    requires j in peers && j !in done
    ensures EndsIn(voters)(r', s') && r <= r' && ToldBy(s, s', i, peers, done + {j})
  {
    AllCommitted(r, voters, s, i, peers);
    OneTaught(s, i, j, peers);
    r', s' := Tells(r, voters, s, i, j);
    AllStayInformed(s, s', i, j, peers, done);
  }

  lemma OneTaught(s: State, i: nat, j: nat, peers: set<nat>)
    requires Taught(s, i, peers) && j in peers
    ensures Taught(s, i, {j})
  {
  }

  lemma WorkedTwice(a: State, b: State, c: State, i: nat, peers: set<nat>)
    requires Worked(a, b, i, peers) && Worked(b, c, i, peers)
    ensures Worked(a, c, i, peers)
  {
  }

  lemma ToldTwice(a: State, b: State, c: State, i: nat, peers: set<nat>, done: set<nat>, more: set<nat>)
    requires ToldBy(a, b, i, peers, done) && ToldBy(b, c, i, peers, more)
    ensures ToldBy(a, c, i, peers, more)
  {
    WorkedTwice(a, b, c, i, peers);
  }

  lemma OneMore(peers: set<nat>, done: set<nat>) returns (j: nat)
    requires done <= peers && done != peers
    ensures j in peers && j !in done
  {
    j :| j in peers && j !in done;
  }

  lemma AllTold(s: State, i: nat, peers: set<nat>)
    requires Telling(s, i, peers, peers)
    ensures ToldBy(s, s, i, peers, peers)
  {
  }

  lemma {:induction false} TellsAll(r: Run, voters: set<nat>, s: State, i: nat, peers: set<nat>, done: set<nat>)
    returns (r': Run, s': State)
    requires EndsIn(voters)(r, s) && Quorate(voters, i, peers) && Telling(s, i, peers, done)
    ensures EndsIn(voters)(r', s') && r <= r' && ToldBy(s, s', i, peers, peers)
    decreases peers - done
  {
    if done == peers {
      r', s' := r, s;
      AllTold(s, i, peers);
    } else {
      var j := OneMore(peers, done);
      var p, m := TellsOne(r, voters, s, i, j, peers, done);
      r', s' := TellsAll(p, voters, m, i, peers, done + {j});
      ToldTwice(s, m, s', i, peers, done + {j}, peers);
    }
  }

  lemma WholeLogCommits(r: Run, voters: set<nat>, s: State, i: nat, peers: set<nat>) returns (r': Run, s': State)
    requires EndsIn(voters)(r, s) && LeaderOf(s, i, peers) && Quorate(voters, i, peers)
    ensures EndsIn(voters)(r', s') && r <= r' && Worked(s, s', i, peers) && AllInformed(s', i, peers)
    ensures s'.nodes[i].log.committed == |s.nodes[i].log.ents|
  {
    var p, m := TeachesAll(r, voters, s, i, peers);
    r', s' := TellsAll(p, voters, m, i, peers, {});
    WorkedTwice(s, m, s', i, peers);
    AllCommitted(r', voters, s', i, peers);
  }

  /** Everything a leader holds can be committed: in every reachable state a leader and peers of no higher
      term that make a majority with it can, by messages among themselves alone, extend the run to a state in
      which the leader, still of that term and with that log, has committed all of it, and so has each of
      the peers. */
  lemma ReachableCommits(r: Run, voters: set<nat>, i: nat, peers: set<nat>) returns (r': Run)
    requires IsRun(r, voters) && LeaderOf(r[|r| - 1], i, peers) && Quorate(voters, i, peers)
    ensures IsRun(r', voters) && r <= r' && Worked(r[|r| - 1], r'[|r'| - 1], i, peers)
    ensures AllInformed(r'[|r'| - 1], i, peers)
    ensures r'[|r'| - 1].nodes[i].log.committed == |r[|r| - 1].nodes[i].log.ents|
  {
    EndsIs(r, voters, r[|r| - 1]);
    var s';
    r', s' := WholeLogCommits(r, voters, r[|r| - 1], i, peers);
    EndsIs(r', voters, s');
  }
}
