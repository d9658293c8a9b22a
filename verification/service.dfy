/** What the library is for: from every reachable state a majority can elect a leader among them and commit
    what it is asked to append, by messages among themselves alone. */
module Service {
  import opened RaftTypes
  import opened AbstractLog
  import opened ProgressSpec
  import opened Quorum
  import opened NodeSpec
  import opened Cluster
  import opened Traces
  import opened RunProperties
  import opened Proposals
  import opened SentMessages
  import opened Elections
  import opened CommitRuns

  /** The elected node is asked to append `es`. */
  lemma Asks(s: State, i: nat, es: seq<Entry>) returns (s': State)
    requires i in s.nodes && s.nodes[i].role == Leader && Healthy(s)
    ensures NextBy(s, s', i, Propose(es)) && Next(s, s')
    ensures Proposed(s, s', i, es) && s'.nodes == s.nodes[i := s'.nodes[i]] && s'.nodes[i].WellFormed()
    ensures s'.nodes[i].prs.Keys == s.nodes[i].prs.Keys && s'.nodes[i].voters == s.nodes[i].voters
  {
    s' := State(s.nodes[i := AppendEntry(s.nodes[i], es)], s.sent + {});
    assert NextBy(s, s', i, Propose(es));
    ProposedStep(s, s', i, es);
    AppendEntryGains(s.nodes[i], es);
  }

  /** The entry a leader begins its term with. */
  function Opening(n: Node): Entry { Entry(EntryNormal, n.term + 1, |n.log.ents| + 1, []) }

  /** Node `f` has committed the log that `n` had, the entry that opened the next term, and the entries of
      `es` with their types and payloads, in order, and nothing else. */
  ghost predicate Committed(f: Node, n: Node, es: seq<Entry>) {
    && f.log.committed == |n.log.ents| + 1 + |es| <= |f.log.ents|
    && Gains(n.log.ents + [Opening(n)], f.log.ents[..f.log.committed], es, n.term + 1, |n.log.ents| + 2)
  }

  ghost predicate Served(s: State, s': State, i: nat, backers: set<nat>, es: seq<Entry>) {
    && i in s.nodes && s'.nodes.Keys == s.nodes.Keys
    && (forall j :: j in s.nodes && j !in backers ==> s'.nodes[j] == s.nodes[j])
    && forall j :: j in backers ==> j in s'.nodes && Committed(s'.nodes[j], s.nodes[i], es)
  }

  /** The elected leader may teach the others of its majority. */
  lemma LeadsThem(s: State, a: State, b: State, i: nat, backers: set<nat>, es: seq<Entry>)
    requires Enough(s, i, backers) && ElectedBy(s, a, i, backers) && s.nodes[i].id == i
    requires Proposed(a, b, i, es) && b.nodes == a.nodes[i := b.nodes[i]]
    requires backers <= b.nodes[i].prs.Keys
    ensures LeaderOf(b, i, backers - {i})
  {
    forall j | j in backers - {i} ensures j in b.nodes && j in b.nodes[i].prs && b.nodes[j].term <= b.nodes[i].term {
      assert j in a.nodes;
    }
  }

  lemma LogThen(s: State, a: State, b: State, i: nat, backers: set<nat>, es: seq<Entry>)
    requires ElectedBy(s, a, i, backers) && s.nodes[i].id == i && Proposed(a, b, i, es)
    ensures Gains(s.nodes[i].log.ents + [Opening(s.nodes[i])], b.nodes[i].log.ents, es, s.nodes[i].term + 1,
                  |s.nodes[i].log.ents| + 2)
  {
  }

  lemma CommittedThere(f: Node, n: Node, es: seq<Entry>, l: seq<Entry>)
    requires Gains(n.log.ents + [Opening(n)], l, es, n.term + 1, |n.log.ents| + 2)
    requires l <= f.log.ents && f.log.committed == |l|
    ensures Committed(f, n, es)
  {
    assert f.log.ents[..|l|] == l;
  }

  lemma AllServed(s: State, a: State, b: State, c: State, i: nat, backers: set<nat>, es: seq<Entry>)
    requires Enough(s, i, backers) && ElectedBy(s, a, i, backers) && s.nodes[i].id == i
    requires Proposed(a, b, i, es) && b.nodes == a.nodes[i := b.nodes[i]]
    requires Worked(b, c, i, backers - {i}) && AllInformed(c, i, backers - {i})
    requires c.nodes[i].log.committed == |b.nodes[i].log.ents|
    ensures Served(s, c, i, backers, es)
  {
    LogThen(s, a, b, i, backers, es);
    forall j | j in backers ensures j in c.nodes && Committed(c.nodes[j], s.nodes[i], es) {
      OneServed(b, c, s.nodes[i], i, backers, es, j);
    }
    OthersUnserved(s, a, b, c, i, backers, es);
  }

  lemma OneServed(b: State, c: State, n: Node, i: nat, backers: set<nat>, es: seq<Entry>, j: nat)
    requires Worked(b, c, i, backers - {i}) && AllInformed(c, i, backers - {i}) && j in backers
    requires c.nodes[i].log.committed == |b.nodes[i].log.ents|
    requires Gains(n.log.ents + [Opening(n)], b.nodes[i].log.ents, es, n.term + 1, |n.log.ents| + 2)
    ensures j in c.nodes && Committed(c.nodes[j], n, es)
  {
    HoldsAll(b, c, i, backers, j);
    CommittedThere(c.nodes[j], n, es, b.nodes[i].log.ents);
  }

  lemma OthersUnserved(s: State, a: State, b: State, c: State, i: nat, backers: set<nat>, es: seq<Entry>)
    requires Enough(s, i, backers) && ElectedBy(s, a, i, backers)
    requires Proposed(a, b, i, es) && b.nodes == a.nodes[i := b.nodes[i]] && Worked(b, c, i, backers - {i})
    ensures i in s.nodes && c.nodes.Keys == s.nodes.Keys
    ensures forall j :: j in s.nodes && j !in backers ==> c.nodes[j] == s.nodes[j]
  {
  }

  lemma HoldsAll(b: State, c: State, i: nat, backers: set<nat>, j: nat)
    requires Worked(b, c, i, backers - {i}) && AllInformed(c, i, backers - {i}) && j in backers
    requires c.nodes[i].log.committed == |b.nodes[i].log.ents|
    ensures j in c.nodes && b.nodes[i].log.ents <= c.nodes[j].log.ents
    ensures c.nodes[j].log.committed == |b.nodes[i].log.ents|
  {
    if j != i { assert Informed(c, i, j); }
  }

  lemma QuorateRest(voters: set<nat>, i: nat, backers: set<nat>)
    requires i in backers && backers <= voters && |backers| >= Majority(|voters|)
    ensures Quorate(voters, i, backers - {i})
  {
    assert backers - {i} + {i} == backers;
  }

  lemma EnoughOf(r: Run, voters: set<nat>, s: State, i: nat, backers: set<nat>)
    requires EndsIn(voters)(r, s) && Enough(s, i, backers)
    ensures Quorate(voters, i, backers - {i}) && s.nodes[i].id == i
  {
    EndsVoters(r, voters, s, i);
    EndsHealthy(r, voters, s);
    QuorateRest(voters, i, backers);
  }

  lemma RecordsThere(r: Run, voters: set<nat>, s: State, i: nat, peers: set<nat>)
    requires EndsIn(voters)(r, s) && i in s.nodes && Quorate(voters, i, peers)
    ensures peers + {i} <= s.nodes[i].prs.Keys
  {
    EndsVoters(r, voters, s, i);
    EndsHealthy(r, voters, s);
  }

  /** Elected, and asked. */
  ghost predicate Ready(s: State, b: State, i: nat, backers: set<nat>, es: seq<Entry>) {
    exists a :: ElectedBy(s, a, i, backers) && Proposed(a, b, i, es) && b.nodes == a.nodes[i := b.nodes[i]]
  }

  lemma ElectsAndAsks(r: Run, voters: set<nat>, s: State, i: nat, backers: set<nat>, es: seq<Entry>)
    returns (r': Run, b: State)
    requires EndsIn(voters)(r, s) && Enough(s, i, backers) && s.nodes[i].id == i
    ensures EndsIn(voters)(r', b) && r <= r' && Ready(s, b, i, backers, es)
  {
    var p, a;
    p, a := ReachableElects(r, voters, s, i, backers);
    EndsHealthy(p, voters, a);
    b := Asks(a, i, es);
    r' := EndsMore(p, voters, a, b);
  }

  lemma ServedAfter(s: State, b: State, c: State, i: nat, backers: set<nat>, es: seq<Entry>)
    requires Enough(s, i, backers) && s.nodes[i].id == i && Ready(s, b, i, backers, es)
    requires Worked(b, c, i, backers - {i}) && AllInformed(c, i, backers - {i})
    requires c.nodes[i].log.committed == |b.nodes[i].log.ents|
    ensures Served(s, c, i, backers, es)
  {
    var a :| ElectedBy(s, a, i, backers) && Proposed(a, b, i, es) && b.nodes == a.nodes[i := b.nodes[i]];
    AllServed(s, a, b, c, i, backers, es);
  }

  lemma ReadyLeads(s: State, b: State, i: nat, backers: set<nat>, es: seq<Entry>)
    requires Enough(s, i, backers) && s.nodes[i].id == i && Ready(s, b, i, backers, es)
    requires backers - {i} + {i} <= b.nodes[i].prs.Keys
    ensures LeaderOf(b, i, backers - {i})
  {
    var a :| ElectedBy(s, a, i, backers) && Proposed(a, b, i, es) && b.nodes == a.nodes[i := b.nodes[i]];
    LeadsThem(s, a, b, i, backers, es);
  }

  lemma Serves(r: Run, voters: set<nat>, s: State, i: nat, backers: set<nat>, es: seq<Entry>)
    returns (r': Run, s': State)
    requires EndsIn(voters)(r, s) && Enough(s, i, backers)
    ensures EndsIn(voters)(r', s') && r <= r' && Served(s, s', i, backers, es)
  {
    EnoughOf(r, voters, s, i, backers);
    var p, b := ElectsAndAsks(r, voters, s, i, backers, es);
    RecordsThere(p, voters, b, i, backers - {i});
    ReadyLeads(s, b, i, backers, es);
    r', s' := WholeLogCommits(p, voters, b, i, backers - {i});
    ServedAfter(s, b, s', i, backers, es);
  }

  /** The cluster can always serve: in every reachable state, if no member of some majority is ahead of node
      `i` in term or log and `i` has no configuration change to apply first, then whatever `es` is, the run
      extends, by messages among that majority alone, to a state in which each of them has committed the log
      `i` had, the entry that opens its term, and `es` with types and payloads as given. */
  lemma ReachableServes(r: Run, voters: set<nat>, i: nat, backers: set<nat>, es: seq<Entry>) returns (r': Run)
    requires IsRun(r, voters) && Enough(r[|r| - 1], i, backers)
    ensures IsRun(r', voters) && r <= r' && Served(r[|r| - 1], r'[|r'| - 1], i, backers, es)
  {
    EndsIs(r, voters, r[|r| - 1]);
    var s';
    r', s' := Serves(r, voters, r[|r| - 1], i, backers, es);
    EndsIs(r', voters, s');
  }
}
