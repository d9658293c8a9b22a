/** What a delivered message does in a run, in terms of the node's fields and the log's entries, and what
    became of the sender's log when it was sent. */
module Deliveries {
  import opened RaftTypes
  import opened AbstractLog
  import opened ProgressSpec
  import opened NodeSpec
  import opened Replication
  import opened Cluster
  import opened Traces
  import opened History
  import opened HistoryLemmas
  import opened NodeSteps
  import opened StepSafety
  import opened ClusterSafety
  import opened Theorems
  import opened RunProperties
  import opened SentMessages
  import L = Elections

  /** Message `m` is delivered to node `i` in the last state but need not be the newest. */
  ghost predicate Arrives(s: State, i: nat, m: Message) { i in s.nodes && m in s.sent && m.to == i }

  lemma ArrivesSafely(r: Run, voters: set<nat>, k: nat, i: nat, m: Message, ch: Choice)
    requires IsRun(r, voters) && k < |r| && Arrives(r[k], i, m)
    ensures Sound(r[k].nodes[i]) && r[k].nodes[i].id == i && Step(r[k].nodes[i], m, ch).Done?
    ensures m.from != i && m.term >= 1 && m.mtype != MsgHup
  {
    AlwaysHealthy(r, voters, k);
    AlwaysApart(r, voters, k);
    NoPanic(r, voters, k, i, Deliver(m, ch));
  }

  // ---- from a leader ----

  /** Node `i` leads `term` at moment `p`. */
  ghost predicate LedAt(r: Run, p: nat, i: nat, term: nat) {
    p < |r| && i in r[p].nodes && r[p].nodes[i].role == Leader && r[p].nodes[i].term == term
  }

  lemma SaysLeader(s: State, s': State, m: Message)
    requires SentBetween(s, s', m) && m.mtype in {MsgAppend, MsgHeartbeat} && s'.nodes[m.from].id == m.from
    ensures s'.nodes[m.from].role == Leader && s'.nodes[m.from].term == m.term && m.to != m.from
  {
  }

  /** Appends and heartbeats come from the leader of their term. */
  lemma SentByLeader(r: Run, voters: set<nat>, k: nat, m: Message) returns (p: nat)
    requires IsRun(r, voters) && k < |r| && m in r[k].sent && m.mtype in {MsgAppend, MsgHeartbeat}
    ensures p <= k && LedAt(r, p, m.from, m.term) && m.to != m.from
  {
    var q := EverySent(r, voters, k, m);
    AlwaysHealthy(r, voters, q + 1);
    SaysLeader(r[q], r[q + 1], m);
    p := q + 1;
  }

  lemma AnotherLeads(r: Run, voters: set<nat>, k: nat, i: nat, m: Message)
    requires IsRun(r, voters) && k < |r| && Arrives(r[k], i, m) && m.mtype in {MsgAppend, MsgHeartbeat}
    ensures r[k].nodes[i].role == Leader ==> r[k].nodes[i].term != m.term
  {
    var p := SentByLeader(r, voters, k, m);
    if r[k].nodes[i].role == Leader && r[k].nodes[i].term == m.term { ElectionSafety(r, voters, k, p, i, m.from); }
  }

  /** No node that leads a term hears from another leader of it. */
  lemma HearsIt(r: Run, voters: set<nat>, k: nat, i: nat, m: Message)
    requires IsRun(r, voters) && k < |r| && Arrives(r[k], i, m) && m.mtype in {MsgAppend, MsgHeartbeat}
    requires m.term >= r[k].nodes[i].term
    ensures Hears(r[k].nodes[i], m.term)
  {
    AlwaysHealthy(r, voters, k);
    AnotherLeads(r, voters, k, i, m);
  }

  /** The receiver follows the sender in its term. */
  ghost predicate FollowsSender(n: Node, m: Message, n': Node) {
    && n'.role == Follower && n'.term == m.term && n'.id == n.id
    && n'.vote == (if m.term > n.term then INVALID_ID else n.vote)
    && n'.leaderId == (if m.term > n.term || n.role != Follower then m.from else n.leaderId)
  }

  /** A heartbeat moves the commit mark up to what it says, never back, leaves everything else of the log
      alone, and is answered with its context. */
  ghost predicate HeartbeatTaken(n: Node, m: Message, o: Outcome) {
    && o.Done? && FollowsSender(n, m, o.node)
    && o.node.log == n.log.(committed := o.node.log.committed)
    && o.node.log.committed >= m.commit && o.node.log.committed >= n.log.committed
    && (o.node.log.committed == n.log.committed || o.node.log.committed == m.commit)
    && o.out == {Message(MsgHeartbeatResponse, m.from, n.id, m.term, context := m.context)}
  }

  lemma HeartbeatEffect(n: Node, m: Message, ch: Choice)
    requires n.WellFormed() && m.mtype == MsgHeartbeat && m.term >= 1 && Hears(n, m.term) && Step(n, m, ch).Done?
    ensures HeartbeatTaken(n, m, Step(n, m, ch))
  {
  }

  /** Heartbeats carry the commit mark: in every run one that is not of an earlier term is taken. */
  lemma HeartbeatDelivered(r: Run, voters: set<nat>, k: nat, i: nat, m: Message, ch: Choice)
    requires IsRun(r, voters) && k < |r| && Arrives(r[k], i, m)
    requires m.mtype == MsgHeartbeat && m.term >= r[k].nodes[i].term
    ensures r[k].nodes[i].WellFormed() && HeartbeatTaken(r[k].nodes[i], m, Step(r[k].nodes[i], m, ch))
  {
    ArrivesSafely(r, voters, k, i, m, ch);
    HearsIt(r, voters, k, i, m);
    HeartbeatEffect(r[k].nodes[i], m, ch);
  }

  // ---- appends ----

  /** The log holds the place an append starts from. */
  predicate HoldsPlace(es: seq<Entry>, m: Message) {
    if m.index == 0 then m.logTerm == 0 else m.index <= |es| && es[m.index - 1].term == m.logTerm
  }

  /** The entries were taken in: they follow the named place, nothing before it changed, the log was cut
      behind them unless it held them already, and the commit mark moved as far as they reach. */
  ghost predicate TakenIn(l: Log, m: Message, l': Log) {
    var e := m.index + |m.entries|;
    && l' == l.(ents := l'.ents, committed := l'.committed)
    && m.index <= |l.ents| && e <= |l'.ents|
    && l'.ents[m.index..e] == m.entries && l'.ents[..m.index] == l.ents[..m.index]
    && (l'.ents == l.ents || |l'.ents| == e)
    && l'.committed == (if m.commit <= e then if l.committed < m.commit then m.commit else l.committed
                        else if l.committed < e then e else l.committed)
  }

  /** The three answers to an append: what is committed, the end of what was taken in, or a rejection with
      the end of the log. */
  ghost predicate AppendTaken(n: Node, m: Message, o: Outcome) {
    && o.Done? && FollowsSender(n, m, o.node)
    && if m.index < n.log.committed then
         && o.node.log == n.log
         && o.out == {Message(MsgAppendResponse, m.from, n.id, m.term, index := n.log.committed)}
       else if HoldsPlace(n.log.ents, m) then
         && TakenIn(n.log, m, o.node.log)
         && o.out == {Message(MsgAppendResponse, m.from, n.id, m.term, index := m.index + |m.entries|)}
       else
         && o.node.log == n.log
         && o.out == {Message(MsgAppendResponse, m.from, n.id, m.term, index := m.index, reject := true,
                              rejectHint := |n.log.ents|)}
  }

  lemma PlaceMatches(l: Log, m: Message)
    requires l.base == 0 && l.baseTerm == 0 && (m.index == 0 ==> m.logTerm == 0)
    requires m.index > 0 ==> m.logTerm >= 1
    ensures l.MatchTerm(m.index, m.logTerm) <==> HoldsPlace(l.ents, m)
  {
  }

  /** An append of a run names a place of its leader's log. */
  lemma PlaceNamed(g: Hist, voters: set<nat>, m: Message)
    requires LedOk(g) && AppendOk(g, voters, m)
    ensures m.index == 0 ==> m.logTerm == 0
    ensures m.index > 0 ==> m.logTerm >= 1
  {
    if m.index > 0 { assert GoodEntry(g, g.led[m.term], m.index - 1, m.term); }
  }

  lemma MergedIs(g: Hist, voters: set<nat>, n: Node, m: Message, es': seq<Entry>, conflict: nat)
    requires AppendOk(g, voters, m) && MergedOver(g, n, m, es', conflict)
    requires Same(n.log.ents, g.led[m.term], m.index)
    ensures var e := m.index + |m.entries|;
            && m.index <= |n.log.ents| && e <= |es'|
            && es'[m.index..e] == m.entries && es'[..m.index] == n.log.ents[..m.index]
            && (es' == n.log.ents || |es'| == e)
  {
  }

  lemma AppendTakenIn(g: Hist, voters: set<nat>, n: Node, m: Message)
    requires HistOk(g, voters) && AppendOk(g, voters, m) && n.term <= m.term
    requires GoodLog(g, n.log.ents, n.term) && CommitOk(g, voters, n.log.ents, n.log.committed, n.term)
    requires n.log.base == 0 && n.log.baseTerm == 0 && n.log.MatchTerm(m.index, m.logTerm) && m.term >= 1
    ensures var r := n.log.MaybeAppend(m.index, m.logTerm, m.commit, m.entries);
            r.Accepted? && r.last == m.index + |m.entries| && TakenIn(n.log, m, r.log)
  {
    PrefixAgrees(g, voters, n, m, false);
    CommittedInLeader(g, voters, n.log.ents, n.log.committed, n.term, m.term);
    MaybeAppendMerges(g, voters, n, m, m.logTerm);
    var r := n.log.MaybeAppend(m.index, m.logTerm, m.commit, m.entries);
    MergedIs(g, voters, n, m, r.log.ents, n.log.FindConflict(m.entries));
  }

  /** What an append finds at its receiver: what is committed, a log it fits, or one it does not. */
  ghost predicate Placed(l: Log, m: Message) {
    || m.index < l.committed
    || (HoldsPlace(l.ents, m) && l.MatchTerm(m.index, m.logTerm)
        && var r := l.MaybeAppend(m.index, m.logTerm, m.commit, m.entries);
           r.Accepted? && r.last == m.index + |m.entries| && TakenIn(l, m, r.log))
    || (!HoldsPlace(l.ents, m) && !l.MatchTerm(m.index, m.logTerm))
  }

  lemma PlacedIn(g: Hist, voters: set<nat>, s: State, i: nat, m: Message)
    requires InvFor(voters)(g, s) && i in s.nodes && m in s.sent && m.mtype == MsgAppend && s.nodes[i].term <= m.term
    ensures Placed(s.nodes[i].log, m)
  {
    InvForIs(g, voters, s);
    var n := s.nodes[i];
    assert NodeOk(g, voters, i, n) && MsgOk(g, voters, m);
    PlaceNamed(g, voters, m);
    PlaceMatches(n.log, m);
    if n.log.MatchTerm(m.index, m.logTerm) { AppendTakenIn(g, voters, n, m); }
  }

  lemma AppendHandled(n: Node, m: Message, ch: Choice)
    requires m.mtype == MsgAppend && Placed(n.log, m) && !ch.byMessageTerm && n.log.base == 0
    ensures var o := HandleAppend(n, m, ch);
            && o.Done? && o.node == n.(log := o.node.log)
            && (m.index < n.log.committed ==>
                  o.node == n && o.out == {Message(MsgAppendResponse, m.from, n.id, n.term, index := n.log.committed)})
            && (m.index >= n.log.committed && HoldsPlace(n.log.ents, m) ==>
                  TakenIn(n.log, m, o.node.log) &&
                  o.out == {Message(MsgAppendResponse, m.from, n.id, n.term, index := m.index + |m.entries|)})
            && (m.index >= n.log.committed && !HoldsPlace(n.log.ents, m) ==>
                  o.node == n &&
                  o.out == {Message(MsgAppendResponse, m.from, n.id, n.term, index := m.index, reject := true,
                                    rejectHint := |n.log.ents|)})
  {
  }

  /** A node that may hear of a leader follows it and handles the append. */
  lemma HandledBy(n: Node, m: Message, ch: Choice)
    requires n.WellFormed() && m.mtype == MsgAppend && m.term >= 1 && Hears(n, m.term)
    ensures var b := Heard(n, m.term, m.from);
            && Step(n, m, ch) == HandleAppend(b, m, ch) && b.log == n.log && b.id == n.id && b.term == m.term
            && FollowsSender(n, m, b)
  {
  }

  lemma AppendEffect(n: Node, m: Message, ch: Choice)
    requires n.WellFormed() && m.mtype == MsgAppend && m.term >= 1 && Hears(n, m.term) && !ch.byMessageTerm
    requires Placed(n.log, m) && n.log.base == 0
    ensures AppendTaken(n, m, Step(n, m, ch))
  {
    HandledBy(n, m, ch);
    AppendHandled(Heard(n, m.term, m.from), m, ch);
  }

  lemma ArrivesPlaced(r: Run, voters: set<nat>, k: nat, i: nat, m: Message)
    requires IsRun(r, voters) && k < |r| && Arrives(r[k], i, m)
    requires m.mtype == MsgAppend && m.term >= r[k].nodes[i].term
    ensures Placed(r[k].nodes[i].log, m)
  {
    var g := StateExplained(r, voters, k);
    PlacedIn(g, voters, r[k], i, m);
  }

  /** Appends are handled as the leader means them: in every run one that is not of an earlier term meets a
      log that has committed past it, one that holds the place it starts from and takes its entries and its
      commit mark in, or one that does not and says where it ends. */
  lemma AppendDelivered(r: Run, voters: set<nat>, k: nat, i: nat, m: Message, ch: Choice)
    requires IsRun(r, voters) && k < |r| && Arrives(r[k], i, m) && !ch.byMessageTerm
    requires m.mtype == MsgAppend && m.term >= r[k].nodes[i].term
    ensures r[k].nodes[i].WellFormed() && AppendTaken(r[k].nodes[i], m, Step(r[k].nodes[i], m, ch))
  {
    ArrivesSafely(r, voters, k, i, m, ch);
    HearsIt(r, voters, k, i, m);
    ArrivesPlaced(r, voters, k, i, m);
    AppendEffect(r[k].nodes[i], m, ch);
  }

  /** The leader's commit mark travels with its appends: a follower that takes in a batch reaching what its
      leader had committed when it sent it has committed that much. */
  lemma MarkDelivered(r: Run, voters: set<nat>, k: nat, i: nat, m: Message, ch: Choice) returns (p: nat)
    requires IsRun(r, voters) && k < |r| && Arrives(r[k], i, m) && !ch.byMessageTerm
    requires m.mtype == MsgAppend && m.term >= r[k].nodes[i].term
    requires m.index >= r[k].nodes[i].log.committed && HoldsPlace(r[k].nodes[i].log.ents, m)
    ensures p < k && SentBetween(r[p], r[p + 1], m) && r[k].nodes[i].WellFormed()
    ensures var mark, o := r[p + 1].nodes[m.from].log.committed, Step(r[k].nodes[i], m, ch);
            o.Done? && (mark <= m.index + |m.entries| ==> o.node.log.committed >= mark)
  {
    p := EverySent(r, voters, k, m);
    AppendDelivered(r, voters, k, i, m, ch);
  }

  // ---- vote requests ----

  /** Free to vote for the sender: the term is new to the node, or it chose the sender in it already, or it
      chose no one and follows no one. */
  predicate Free(n: Node, m: Message) {
    m.term > n.term || n.vote == m.from || (n.vote == INVALID_ID && n.leaderId == INVALID_ID)
  }

  /** `es` is the candidate's log when it asked. A vote is given exactly by a node that is free to and whose
      log is not ahead of that; a refusal names the node's term. */
  ghost predicate VoteDecided(n: Node, m: Message, es: seq<Entry>, o: Outcome) {
    var granted := Free(n, m) && UpToDate(es, n.log.ents);
    && o.Done? && o.node.log == n.log && o.node.id == n.id && o.node.term == m.term
    && o.node.vote == (if granted then m.from else if m.term > n.term then INVALID_ID else n.vote)
    && o.out == {Message(MsgRequestVoteResponse, m.from, n.id, m.term, reject := !granted)}
  }

  /** A pre-vote changes nothing at the node that is asked. */
  ghost predicate PreVoteDecided(n: Node, m: Message, es: seq<Entry>, o: Outcome) {
    var granted := Free(n, m) && UpToDate(es, n.log.ents);
    o == Done(n, {Message(MsgRequestPreVoteResponse, m.from, n.id, if granted then m.term else n.term,
                          reject := !granted)})
  }

  lemma VoteEffect(n: Node, m: Message, ch: Choice, es: seq<Entry>)
    requires Sound(n) && m.mtype == MsgRequestVote && m.term >= n.term && m.term >= 1
    requires !ch.drop || m.term == n.term
    requires NamesEnd(m, es) && m.to == n.id && Step(n, m, ch).Done?
    ensures VoteDecided(n, m, es, Step(n, m, ch))
  {
    L.UpToDateExact(es, n.log);
  }

  lemma PreVoteEffect(n: Node, m: Message, ch: Choice, es: seq<Entry>)
    requires Sound(n) && m.mtype == MsgRequestPreVote && m.term >= n.term && m.term >= 1
    requires !ch.drop || m.term == n.term
    requires NamesEnd(m, es) && m.to == n.id && Step(n, m, ch).Done?
    ensures PreVoteDecided(n, m, es, Step(n, m, ch))
  {
    L.UpToDateExact(es, n.log);
  }

  /** Votes are decided by the logs: in every run a request that is not of an earlier term, and not dropped,
      is granted exactly by a node free to vote for the sender whose log is not ahead of the one the sender
      had when it asked. */
  lemma VoteDelivered(r: Run, voters: set<nat>, k: nat, i: nat, m: Message, ch: Choice) returns (p: nat)
    requires IsRun(r, voters) && k < |r| && Arrives(r[k], i, m) && m.term >= r[k].nodes[i].term
    requires m.mtype in {MsgRequestVote, MsgRequestPreVote} && (!ch.drop || m.term == r[k].nodes[i].term)
    ensures p < k && SentBetween(r[p], r[p + 1], m) && r[k].nodes[i].WellFormed()
    ensures var n, es, o := r[k].nodes[i], r[p + 1].nodes[m.from].log.ents, Step(r[k].nodes[i], m, ch);
            if m.mtype == MsgRequestVote then VoteDecided(n, m, es, o) else PreVoteDecided(n, m, es, o)
  {
    ArrivesSafely(r, voters, k, i, m, ch);
    p := EverySent(r, voters, k, m);
    var es := r[p + 1].nodes[m.from].log.ents;
    if m.mtype == MsgRequestVote {
      VoteEffect(r[k].nodes[i], m, ch, es);
    } else {
      PreVoteEffect(r[k].nodes[i], m, ch, es);
    }
  }

  // ---- messages of an earlier term ----

  /** Nothing of an earlier term changes a node. It is told the present term where that helps: a leader,
      if there are leases or pre-votes, and whoever asks for a pre-vote. */
  ghost predicate Outdated(n: Node, m: Message, o: Outcome) {
    o == Done(n, if m.mtype in {MsgAppend, MsgHeartbeat} && (n.checkQuorum || n.preVote)
                   then {Message(MsgAppendResponse, m.from, n.id, n.term)}
                 else if m.mtype == MsgRequestPreVote
                   then {Message(MsgRequestPreVoteResponse, m.from, n.id, n.term, reject := true)}
                 else {})
  }

  lemma OutdatedDelivered(n: Node, m: Message, ch: Choice)
    requires n.WellFormed() && 1 <= m.term < n.term
    ensures Outdated(n, m, Step(n, m, ch))
  {
  }

  // ---- campaigning ----

  /** A configuration change that is committed is still to be applied. */
  ghost predicate ChangePending(l: Log) {
    exists x :: l.applied <= x < l.committed <= |l.ents| && l.ents[x].etype == EntryConfChange
  }

  /** A timeout leaves a leader alone, and a node with a pending configuration change. Any other one starts
      over with its own vote as the only one: it asks for pre-votes, which changes neither term nor vote, or
      enters the next term and asks for votes, or is its only voter and leads. */
  ghost predicate Campaigns(n: Node, o: Outcome) {
    if n.role == Leader || ChangePending(n.log) then o == Done(n, {})
    else
      && o.Done? && o.node.id == n.id && o.node.voters == n.voters
      && match o.node.role
         case PreCandidate =>
           && n.preVote && o.node == n.(role := PreCandidate, leaderId := INVALID_ID, votes := map[n.id := true])
           && L.Asked(o.out, n, true)
         case Candidate =>
           && !n.preVote && o.node.term == n.term + 1 && o.node.vote == n.id && o.node.leaderId == INVALID_ID
           && o.node.votes == map[n.id := true] && o.node.log == n.log && L.Asked(o.out, n, false)
         case Leader => n.voters == {n.id} && L.Won(o.node, n)
         case Follower => false
  }

  lemma PendingSeen(l: Log, x: nat)
    requires l.base == 0 && l.applied <= x < l.committed <= |l.ents| && l.ents[x].etype == EntryConfChange
    ensures PendingConfChange(l)
  {
    assert l.Range(l.applied + 1, l.committed + 1)[x - l.applied] == l.ents[x];
  }

  lemma SeenPending(l: Log)
    requires l.base == 0 && l.applied <= l.committed <= |l.ents| && PendingConfChange(l)
    ensures ChangePending(l)
  {
    var es := l.Range(l.applied + 1, l.committed + 1);
    var e :| e in es && e.etype == EntryConfChange;
    var y :| 0 <= y < |es| && es[y] == e;
    assert l.ents[l.applied + y] == e;
  }

  lemma PendingIs(l: Log)
    requires l.base == 0 && l.applied <= l.committed <= |l.ents|
    ensures PendingConfChange(l) <==> ChangePending(l)
  {
    if ChangePending(l) {
      var x :| l.applied <= x < l.committed <= |l.ents| && l.ents[x].etype == EntryConfChange;
      PendingSeen(l, x);
    }
    if PendingConfChange(l) { SeenPending(l); }
  }

  lemma ElectionCampaigns(n: Node)
    requires Sound(n) && n.role != Leader && n.id in n.voters && !n.preVote && !ChangePending(n.log)
    ensures Campaigns(n, CampaignElection(n))
  {
    var c := RegisterVote(BecomeCandidate(n), n.id, true);
    L.OwnVote(c);
    if Elected(c) {
      L.AloneTells(c);
      L.Leads(c, n);
    } else {
      L.RequestsAsk(c, n, false);
    }
  }

  lemma PreElectionCampaigns(n: Node)
    requires Sound(n) && n.role != Leader && n.id in n.voters && n.preVote && !ChangePending(n.log)
    ensures Campaigns(n, CampaignPreElection(n))
  {
    var c := RegisterVote(BecomePreCandidate(n), n.id, true);
    L.OwnVote(c);
    if Elected(c) {
      L.AloneTells(c);
      var d := RegisterVote(BecomeCandidate(c), n.id, true);
      L.OwnVote(d);
      L.Leads(d, n);
    } else {
      L.RequestsAsk(c, n, true);
    }
  }

  lemma TimeoutEffect(n: Node)
    requires Sound(n) && n.id in n.voters
    ensures Campaigns(n, Perform(n, Timeout))
  {
    PendingIs(n.log);
    if n.role != Leader && !ChangePending(n.log) {
      if n.preVote { PreElectionCampaigns(n); } else { ElectionCampaigns(n); }
    }
  }

  lemma VoterIn(g: Hist, voters: set<nat>, s: State, i: nat)
    requires InvFor(voters)(g, s) && i in s.nodes
    ensures s.nodes[i].id == i && i in s.nodes[i].voters
  {
    InvForIs(g, voters, s);
    assert NodeOk(g, voters, i, s.nodes[i]);
  }

  lemma IsVoter(r: Run, voters: set<nat>, k: nat, i: nat)
    requires IsRun(r, voters) && k < |r| && i in r[k].nodes
    ensures r[k].nodes[i].id == i && i in r[k].nodes[i].voters
  {
    var g := StateExplained(r, voters, k);
    VoterIn(g, voters, r[k], i);
  }

  /** What a timeout does in any state of any run. */
  lemma TimeoutCampaigns(r: Run, voters: set<nat>, k: nat, i: nat)
    requires IsRun(r, voters) && k < |r| && i in r[k].nodes
    ensures r[k].nodes[i].WellFormed() && Campaigns(r[k].nodes[i], Perform(r[k].nodes[i], Timeout))
  {
    AlwaysHealthy(r, voters, k);
    IsVoter(r, voters, k, i);
    TimeoutEffect(r[k].nodes[i]);
  }

  // ---- answers to a candidate ----

  /** The terms of a node never fall, and as a candidate of one term it forgets and changes no answer. */
  ghost predicate AnswersKept(n: Node, n': Node) {
    && n'.term >= n.term
    && (n'.role == Candidate && n'.term == n.term ==>
          n.role == Candidate && forall j :: j in n.votes ==> j in n'.votes && n'.votes[j] == n.votes[j])
  }

  ghost predicate KeepsAnswers(n: Node, o: Outcome) { o.Done? ==> AnswersKept(n, o.node) }

  lemma CampaignsAnew(n: Node, b: Node)
    requires b.WellFormed() && b.term == n.term
    ensures KeepsAnswers(n, CampaignElection(b)) && KeepsAnswers(n, CampaignPreElection(b))
  {
  }

  lemma CountVoteKeeps(n: Node, m: Message, ch: Choice)
    requires n.WellFormed() && n.role in {PreCandidate, Candidate}
    ensures KeepsAnswers(n, CountVote(n, m, ch))
  {
    var c := RegisterVote(n, m.from, !m.reject);
    if Elected(c) && c.role == PreCandidate { CampaignsAnew(n, c); }
  }

  lemma CandidateKeeps(n: Node, m: Message, ch: Choice)
    requires n.WellFormed() && n.role in {PreCandidate, Candidate}
    ensures KeepsAnswers(n, StepCandidate(n, m, ch))
  {
    match m.mtype {
      case MsgRequestVoteResponse => CountVoteKeeps(n, m, ch);
      case MsgRequestPreVoteResponse => CountVoteKeeps(n, m, ch);
      case _ =>
    }
  }

  lemma DispatchKeeps(n: Node, m: Message, ch: Choice)
    requires n.WellFormed()
    ensures KeepsAnswers(n, Dispatch(n, m, ch))
  {
    if m.mtype == MsgHup {
      CampaignsAnew(n, n);
    } else if m.mtype in {MsgRequestVote, MsgRequestPreVote} {
    } else if n.role in {PreCandidate, Candidate} {
      CandidateKeeps(n, m, ch);
    }
  }

  lemma StepKeeps(n: Node, m: Message, ch: Choice)
    requires n.WellFormed()
    ensures KeepsAnswers(n, Step(n, m, ch))
  {
    match Enter(n, m, ch) {
      case Finished(_, _) =>
      case Proceed(b) => DispatchKeeps(b, m, ch);
    }
  }

  lemma PerformKeeps(n: Node, a: Action)
    requires n.WellFormed() && (a.Crash? ==> a.hs.term == n.term)
    ensures KeepsAnswers(n, Perform(n, a))
  {
    match a {
      case Deliver(m, ch) => StepKeeps(n, m, ch);
      case Timeout => StepKeeps(n, HupMessage(n), Choice(false, false, false));
      case _ =>
    }
  }

  ghost predicate AllKeep(s: State, s': State) {
    forall i :: i in s.nodes ==> i in s'.nodes && AnswersKept(s.nodes[i], s'.nodes[i])
  }

  lemma NextKeeps(s: State, s': State)
    requires Next(s, s')
    ensures AllKeep(s, s')
  {
    var i, a :| NextBy(s, s', i, a);
    PerformKeeps(s.nodes[i], a);
  }

  lemma KeptOn(a: State, b: State, c: State)
    requires AllKeep(a, b) && AllKeep(b, c)
    ensures AllKeep(a, c)
  {
    forall i | i in a.nodes ensures i in c.nodes && AnswersKept(a.nodes[i], c.nodes[i]) {
      assert AnswersKept(a.nodes[i], b.nodes[i]) && AnswersKept(b.nodes[i], c.nodes[i]);
    }
  }

  ghost function KeptSince(s: State): State -> bool { (x: State) => AllKeep(s, x) }

  /** The first answer stands: over any run, between two moments at which a node is a candidate of one term,
      it has forgotten no answer and changed none, whatever it was sent again; and no node's term ever
      falls. */
  lemma AnswersStand(r: Run, voters: set<nat>, p: nat, q: nat, i: nat)
    requires IsRun(r, voters) && p <= q < |r| && i in r[p].nodes
    ensures i in r[q].nodes && AnswersKept(r[p].nodes[i], r[q].nodes[i])
  {
    var t := r[p..];
    RunMoves(r, voters, p);
    forall x, y | AnyMove()(x, y) && KeptSince(r[p])(x) ensures KeptSince(r[p])(y) {
      NextKeeps(x, y);
      KeptOn(r[p], x, y);
    }
    TraceKeeps(t, AnyMove(), KeptSince(r[p]), q - p);
  }

  lemma RunMoves(r: Run, voters: set<nat>, p: nat)
    requires IsRun(r, voters) && p < |r|
    ensures forall k :: 0 <= k < |r[p..]| - 1 ==> MovesAt(r[p..], k, AnyMove())
  {
    forall k | 0 <= k < |r[p..]| - 1 ensures MovesAt(r[p..], k, AnyMove()) { assert StepAt(r, p + k); }
  }

  // ---- whom a node follows ----

  /** Where a node knows its leader from. */
  ghost predicate LeaderFrom(n: Node, a: Action, n': Node) {
    || n'.leaderId == INVALID_ID
    || (n'.leaderId == n.leaderId && n'.term == n.term)
    || (n'.role == Leader && n'.leaderId == n'.id)
    || (a.Deliver? && a.m.mtype in {MsgAppend, MsgHeartbeat} && n'.leaderId == a.m.from && n'.term == a.m.term)
  }

  ghost predicate KnowsFrom(n: Node, a: Action, o: Outcome) { o.Done? ==> LeaderFrom(n, a, o.node) }

  lemma CampaignKnows(n: Node, b: Node, a: Action)
    requires b.WellFormed()
    ensures KnowsFrom(n, a, CampaignElection(b)) && KnowsFrom(n, a, CampaignPreElection(b))
  {
  }

  lemma CountVoteKnows(n: Node, b: Node, m: Message, ch: Choice, a: Action)
    requires b.WellFormed() && b.leaderId == n.leaderId && b.term == n.term && b.role in {PreCandidate, Candidate}
    ensures KnowsFrom(n, a, CountVote(b, m, ch))
  {
    var c := RegisterVote(b, m.from, !m.reject);
    if Elected(c) && c.role == PreCandidate { CampaignKnows(n, c, a); }
  }

  lemma CandidateKnows(n: Node, m: Message, ch: Choice, a: Action)
    requires n.WellFormed() && n.role in {PreCandidate, Candidate} && a.Deliver? && a.m == m
    ensures KnowsFrom(n, a, StepCandidate(n, m, ch))
  {
    match m.mtype {
      case MsgRequestVoteResponse => CountVoteKnows(n, n, m, ch, a);
      case MsgRequestPreVoteResponse => CountVoteKnows(n, n, m, ch, a);
      case _ =>
    }
  }

  lemma StepKnows(n: Node, m: Message, ch: Choice, a: Action)
    requires n.WellFormed() && m.mtype != MsgHup && a.Deliver? && a.m == m
    ensures KnowsFrom(n, a, Step(n, m, ch))
  {
    match Enter(n, m, ch) {
      case Finished(_, _) =>
      case Proceed(b) => if b == n && n.role in {PreCandidate, Candidate} { CandidateKnows(n, m, ch, a); }
    }
  }

  lemma PerformKnows(n: Node, a: Action)
    requires n.WellFormed() && (a.Deliver? ==> a.m.mtype != MsgHup)
    requires a.Propose? || a.Replicating? || a.Beat? || a.Tune? ==> n.role == Leader
    ensures KnowsFrom(n, a, Perform(n, a))
  {
    match a {
      case Deliver(m, ch) => StepKnows(n, m, ch, a);
      case Timeout => CampaignKnows(n, n, a);
      case _ =>
    }
  }

  ghost predicate HasLed(r: Run, k: nat, i: nat, term: nat) { exists p: nat :: p <= k && LedAt(r, p, i, term) }

  ghost predicate AllKnown(r: Run, k: nat)
    requires k < |r|
  {
    forall i :: i in r[k].nodes && r[k].nodes[i].leaderId != INVALID_ID ==>
      HasLed(r, k, r[k].nodes[i].leaderId, r[k].nodes[i].term)
  }

  lemma LedLater(r: Run, k: nat, i: nat, term: nat)
    requires HasLed(r, k, i, term)
    ensures HasLed(r, k + 1, i, term)
  {
    var p: nat :| p <= k && LedAt(r, p, i, term);
    assert p <= k + 1 && LedAt(r, p, i, term);
  }

  lemma SenderLed(r: Run, voters: set<nat>, k: nat, m: Message)
    requires IsRun(r, voters) && k < |r| && m in r[k].sent && m.mtype in {MsgAppend, MsgHeartbeat}
    ensures HasLed(r, k, m.from, m.term)
  {
    var p := SentByLeader(r, voters, k, m);
  }

  lemma ActorKnows(r: Run, k: nat, i: nat, a: Action)
    requires k + 1 < |r| && AllKnown(r, k) && i in r[k].nodes && i in r[k + 1].nodes && r[k + 1].nodes[i].id == i
    requires LeaderFrom(r[k].nodes[i], a, r[k + 1].nodes[i])
    requires a.Deliver? && a.m.mtype in {MsgAppend, MsgHeartbeat} ==> HasLed(r, k, a.m.from, a.m.term)
    ensures var n := r[k + 1].nodes[i]; n.leaderId != INVALID_ID ==> HasLed(r, k + 1, n.leaderId, n.term)
  {
    var n := r[k + 1].nodes[i];
    if n.leaderId != INVALID_ID {
      if n.role == Leader && n.leaderId == n.id {
        assert LedAt(r, k + 1, i, n.term);
      } else {
        LedLater(r, k, n.leaderId, n.term);
      }
    }
  }

  lemma OthersKnow(r: Run, k: nat, i: nat)
    requires k + 1 < |r| && AllKnown(r, k) && i in r[k].nodes && i in r[k + 1].nodes
    requires r[k + 1].nodes == r[k].nodes[i := r[k + 1].nodes[i]]
    requires var n := r[k + 1].nodes[i]; n.leaderId != INVALID_ID ==> HasLed(r, k + 1, n.leaderId, n.term)
    ensures AllKnown(r, k + 1)
  {
    var q, s := k + 1, r[k + 1];
    forall j | j in s.nodes && s.nodes[j].leaderId != INVALID_ID
      ensures HasLed(r, q, s.nodes[j].leaderId, s.nodes[j].term)
    {
      if j != i { LedLater(r, k, s.nodes[j].leaderId, s.nodes[j].term); }
    }
  }

  lemma StepKnown(r: Run, voters: set<nat>, k: nat, i: nat, a: Action)
    requires IsRun(r, voters) && k + 1 < |r| && AllKnown(r, k) && i in r[k].nodes && i in r[k + 1].nodes
    requires a.Deliver? && a.m.mtype in {MsgAppend, MsgHeartbeat} ==> a.m in r[k].sent
    requires LeaderFrom(r[k].nodes[i], a, r[k + 1].nodes[i]) && r[k + 1].nodes[i].id == i
    requires r[k + 1].nodes == r[k].nodes[i := r[k + 1].nodes[i]]
    ensures AllKnown(r, k + 1)
  {
    if a.Deliver? && a.m.mtype in {MsgAppend, MsgHeartbeat} { SenderLed(r, voters, k, a.m); }
    ActorKnows(r, k, i, a);
    OthersKnow(r, k, i);
  }

  lemma Acts(s: State, s': State) returns (i: nat, a: Action)
    requires Living()(s, s')
    ensures i in s.nodes && i in s'.nodes && s'.nodes == s.nodes[i := s'.nodes[i]] && s'.nodes[i].id == i
    ensures LeaderFrom(s.nodes[i], a, s'.nodes[i]) && (a.Deliver? ==> a.m in s.sent)
  {
    i, a :| NextBy(s, s', i, a);
    PerformKnows(s.nodes[i], a);
  }

  lemma {:induction false} KnownAlong(r: Run, voters: set<nat>, k: nat)
    requires IsRun(r, voters) && k < |r|
    ensures AllKnown(r, k)
  {
    if k == 0 {
      KnownAtFirst(r, voters);
    } else {
      KnownAlong(r, voters, k - 1);
      KnownNext(r, voters, k - 1);
    }
  }

  lemma KnownNext(r: Run, voters: set<nat>, k: nat)
    requires IsRun(r, voters) && k + 1 < |r| && AllKnown(r, k)
    ensures AllKnown(r, k + 1)
  {
    RunLives(r, voters);
    assert MovesAt(r, k, Living());
    var i, a := Acts(r[k], r[k + 1]);
    StepKnown(r, voters, k, i, a);
  }

  lemma KnownAtFirst(r: Run, voters: set<nat>)
    requires IsRun(r, voters)
    ensures AllKnown(r, 0)
  {
  }

  /** Whom a node takes for its leader did lead the node's term, at that moment or before. */
  lemma KnownLeaderLed(r: Run, voters: set<nat>, k: nat, i: nat) returns (p: nat)
    requires IsRun(r, voters) && k < |r| && i in r[k].nodes && r[k].nodes[i].leaderId != INVALID_ID
    ensures p <= k && LedAt(r, p, r[k].nodes[i].leaderId, r[k].nodes[i].term)
  {
    KnownAlong(r, voters, k);
    var n := r[k].nodes[i];
    assert HasLed(r, k, n.leaderId, n.term);
    p :| p <= k && LedAt(r, p, n.leaderId, n.term);
  }
}
