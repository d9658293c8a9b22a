/** No step of a consistent node panics, and it leaves the node, and everything it sends, consistent
    with a grown history. */
module StepSafety {
  import opened RaftTypes
  import opened AbstractLog
  import opened ProgressSpec
  import opened NodeSpec
  import opened History
  import opened HistoryLemmas
  import opened HistorySteps
  import opened NodeSteps

  ghost predicate Safe(g: Hist, g': Hist, voters: set<nat>, i: nat, o: Outcome) {
    && o.Done? && Advance(g, g', i) && Local(g', voters, i, o.node)
    && forall m :: m in o.out ==> MsgOk(g', voters, m)
  }

  /** A step after which nothing new needs remembering. */
  lemma SafeAsIs(g: Hist, voters: set<nat>, i: nat, o: Outcome)
    requires o.Done? && Local(g, voters, i, o.node) && forall m :: m in o.out ==> MsgOk(g, voters, m)
    ensures Safe(g, g, voters, i, o)
  {
    AdvanceRefl(g, i);
  }

  lemma SafeAfter(g: Hist, g1: Hist, g': Hist, voters: set<nat>, i: nat, o: Outcome)
    requires Advance(g, g1, i) && Safe(g1, g', voters, i, o)
    ensures Safe(g, g', voters, i, o)
  {
    AdvanceTrans(g, g1, g', i);
  }

  // ---- campaigning ----

  lemma BecomeLeaderSafe(g: Hist, voters: set<nat>, i: nat, c: Node) returns (g': Hist)
    requires Local(g, voters, i, c) && c.role == Candidate && Elected(c)
    ensures c.WellFormed() && Safe(g, g', voters, i, Done(BecomeLeader(c), {}))
    ensures BecomeLeader(c).role == Leader
  {
    LocalShape(g, voters, i, c);
    g' := Crown(g, voters, i, c);
    CommitLeader(g', voters, i, Appended(Enthroned(c), [EMPTY_ENTRY]));
  }

  lemma VoteRequestsOk(g: Hist, voters: set<nat>, i: nat, c: Node)
    requires NodeOk(g, voters, i, c) && CampsOk(g, voters) && c.role == Candidate
    ensures forall m :: m in VoteRequests(c, MsgRequestVote, c.term) ==> MsgOk(g, voters, m)
  {
    LastOfLog(c.log);
  }

  lemma CampaignElectionSafe(g: Hist, voters: set<nat>, i: nat, n: Node) returns (g': Hist)
    requires Local(g, voters, i, n) && n.role != Leader
    ensures n.WellFormed() && Safe(g, g', voters, i, CampaignElection(n))
  {
    LocalShape(g, voters, i, n);
    var c := RegisterVote(BecomeCandidate(n), n.id, true);
    var g1 := Stand(g, voters, i, n);
    if Elected(c) {
      g' := BecomeLeaderSafe(g1, voters, i, c);
      SafeAfter(g, g1, g', voters, i, CampaignElection(n));
    } else {
      g' := g1;
      VoteRequestsOk(g', voters, i, c);
    }
  }

  lemma CampaignPreElectionSafe(g: Hist, voters: set<nat>, i: nat, n: Node) returns (g': Hist)
    requires Local(g, voters, i, n) && n.role != Leader
    ensures n.WellFormed() && Safe(g, g', voters, i, CampaignPreElection(n))
  {
    LocalShape(g, voters, i, n);
    var c := RegisterVote(BecomePreCandidate(n), n.id, true);
    Relax(g, voters, i, n, c);
    if Elected(c) {
      g' := CampaignElectionSafe(g, voters, i, c);
    } else {
      g' := g;
      SafeAsIs(g, voters, i, CampaignPreElection(n));
    }
  }

  lemma HupSafe(g: Hist, voters: set<nat>, i: nat, n: Node) returns (g': Hist)
    requires Local(g, voters, i, n)
    ensures n.WellFormed() && Safe(g, g', voters, i, Hup(n))
  {
    LocalShape(g, voters, i, n);
    if n.role == Leader || PendingConfChange(n.log) {
      g' := g;
      SafeAsIs(g, voters, i, Hup(n));
    } else if n.preVote {
      g' := CampaignPreElectionSafe(g, voters, i, n);
    } else {
      g' := CampaignElectionSafe(g, voters, i, n);
    }
  }

  // ---- voting ----

  lemma EntriesNeedTerm(g: Hist, es: seq<Entry>, bound: nat)
    requires GoodLog(g, es, bound)
    ensures es == [] || bound >= 1
  {
    if es != [] { assert GoodEntry(g, es, 0, bound); }
  }

  lemma HandleVoteRequestSafe(g: Hist, voters: set<nat>, i: nat, n: Node, m: Message) returns (g': Hist)
    requires Local(g, voters, i, n) && MsgOk(g, voters, m)
    requires m.mtype in {MsgRequestVote, MsgRequestPreVote} && m.term >= n.term
    requires m.mtype == MsgRequestVote ==> m.term == n.term
    ensures Safe(g, g', voters, i, HandleVoteRequest(n, m))
  {
    EntriesNeedTerm(g, n.log.ents, n.term);
    g' := g;
    if m.mtype == MsgRequestVote && CanVote(n, m) && n.log.IsUpToDate(m.index, m.logTerm) {
      LastOfLog(n.log);
      assert UpToDate(g.camp[(m.from, m.term)], n.log.ents);
      g' := Grant(g, voters, i, n, m.from);
    } else {
      SafeAsIs(g, voters, i, HandleVoteRequest(n, m));
    }
  }

  // ---- replication: the leader's side ----

  lemma BatchIsPrefix(n: Node, next: nat, es: seq<Entry>)
    requires n.log.base == 0 && 1 <= next <= |n.log.ents| + 1 && Batch(n, next) == Ok(es)
    ensures es <= n.log.ents[next - 1..]
  {
  }

  /** A batch of a leader's log is a piece of it, with the indices it has there. */
  lemma BatchOk(g: Hist, n: Node, next: nat, es: seq<Entry>)
    requires GoodLog(g, n.log.ents, n.term) && n.log.base == 0 && 1 <= next <= |n.log.ents| + 1
    requires Batch(n, next) == Ok(es)
    ensures next - 1 + |es| <= |n.log.ents|
    ensures forall x :: 0 <= x < |es| ==> es[x] == n.log.ents[next - 1 + x]
    ensures es != [] ==> es[|es| - 1].index == next - 1 + |es|
  {
    BatchIsPrefix(n, next, es);
    if es != [] { assert GoodEntry(g, n.log.ents, next - 1 + |es| - 1, n.term); }
  }

  lemma AppendMessageOk(g: Hist, voters: set<nat>, n: Node, to: nat, next: nat, es: seq<Entry>)
    requires GoodLog(g, n.log.ents, n.term) && CommitOk(g, voters, n.log.ents, n.log.committed, n.term)
    requires n.term in g.led && g.led[n.term] == n.log.ents && n.term >= 1 && n.id in voters
    requires n.log.base == 0 && n.log.baseTerm == 0 && 1 <= next <= |n.log.ents| + 1
    requires next - 1 + |es| <= |n.log.ents| && forall x :: 0 <= x < |es| ==> es[x] == n.log.ents[next - 1 + x]
    ensures MsgOk(g, voters, AppendMessage(n, to, next, es))
  {
    assert AppendOk(g, voters, AppendMessage(n, to, next, es));
  }

  /** What `send_append` leaves of a peer's record. */
  lemma SentPeerOk(g: Hist, n: Node, to: nat, es: seq<Entry>)
    requires to in n.prs && PeerOk(g, n, to) && !n.prs[to].IsPaused() && es != []
    requires es[|es| - 1].index == n.prs[to].nextIdx - 1 + |es| <= |n.log.ents|
    ensures forall prs :: to in prs && prs[to] == n.prs[to].Sent(es[|es| - 1].index) ==> PeerOk(g, n.(prs := prs), to)
  {
  }

  lemma SendBatchOk(g: Hist, voters: set<nat>, n: Node, to: nat, es: seq<Entry>)
    requires GoodLog(g, n.log.ents, n.term) && CommitOk(g, voters, n.log.ents, n.log.committed, n.term)
    requires n.term in g.led && g.led[n.term] == n.log.ents && n.term >= 1 && n.id in voters
    requires n.log.base == 0 && n.log.baseTerm == 0
    requires to in n.prs && PeerOk(g, n, to) && !n.prs[to].IsPaused() && 1 <= n.prs[to].nextIdx <= |n.log.ents| + 1
    requires var next := n.prs[to].nextIdx;
             && Batch(n, next) == Ok(es) && next - 1 + |es| <= |n.log.ents|
             && (forall x :: 0 <= x < |es| ==> es[x] == n.log.ents[next - 1 + x])
             && (es != [] ==> es[|es| - 1].index == next - 1 + |es|)
    ensures var s := SendTo(n, to);
            && s.Sending? && (forall m :: m in s.out ==> MsgOk(g, voters, m))
            && forall prs :: to in prs && prs[to] == s.pr ==> PeerOk(g, n.(prs := prs), to)
  {
    AppendMessageOk(g, voters, n, to, n.prs[to].nextIdx, es);
    if es != [] { SentPeerOk(g, n, to, es); }
  }

  lemma SendToOk(g: Hist, voters: set<nat>, i: nat, n: Node, to: nat)
    requires NodeOk(g, voters, i, n) && LedOk(g) && n.role == Leader && to in n.prs
    ensures var s := SendTo(n, to);
            && s.Sending? && (forall m :: m in s.out ==> MsgOk(g, voters, m))
            && forall prs :: to in prs && prs[to] == s.pr ==> PeerOk(g, n.(prs := prs), to)
  {
    assert PeerOk(g, n, to);
    var pr := n.prs[to];
    if !pr.IsPaused() {
      match Batch(n, pr.nextIdx)
      case Err(_) =>
      case Ok(es) =>
        BatchOk(g, n, pr.nextIdx, es);
        SendBatchOk(g, voters, n, to, es);
    }
  }

  lemma OnePeerOk(g: Hist, voters: set<nat>, i: nat, n: Node, j: nat, pr: Pr)
    requires NodeOk(g, voters, i, n) && n.role == Leader && j in n.prs
    requires PeerOk(g, n.(prs := n.prs[j := pr]), j)
    ensures NodeOk(g, voters, i, n.(prs := n.prs[j := pr]))
  {
    var prs := n.prs[j := pr];
    forall q | q in prs ensures PeerOk(g, n.(prs := prs), q) { assert PeerOk(g, n, q); }
    PeersOk(g, voters, i, n, prs);
  }

  lemma SendAppendSafe(g: Hist, voters: set<nat>, i: nat, n: Node, to: nat)
    requires Local(g, voters, i, n) && n.role == Leader
    ensures Safe(g, g, voters, i, SendAppend(n, to))
  {
    if to in n.prs { SendAppendOk(g, voters, i, n, to); }
    SafeAsIs(g, voters, i, SendAppend(n, to));
  }

  lemma SendAppendOk(g: Hist, voters: set<nat>, i: nat, n: Node, to: nat)
    requires NodeOk(g, voters, i, n) && LedOk(g) && n.role == Leader && to in n.prs
    ensures var o := SendAppend(n, to);
            o.Done? && NodeOk(g, voters, i, o.node) && forall m :: m in o.out ==> MsgOk(g, voters, m)
  {
    SendToOk(g, voters, i, n, to);
    OnePeerOk(g, voters, i, n, to, SendTo(n, to).pr);
  }

  lemma BroadcastNode(g: Hist, voters: set<nat>, i: nat, n: Node)
    requires NodeOk(g, voters, i, n) && LedOk(g) && n.role == Leader
    ensures Broadcast(n).Done? && NodeOk(g, voters, i, Broadcast(n).node)
  {
    forall j | j in n.prs ensures SendTo(n, j).Sending? { SendToOk(g, voters, i, n, j); }
    var prs := Broadcast(n).node.prs;
    forall j | j in prs ensures PeerOk(g, n.(prs := prs), j) {
      assert PeerOk(g, n, j);
      SendToOk(g, voters, i, n, j);
    }
    PeersOk(g, voters, i, n, prs);
  }

  lemma BroadcastMessages(g: Hist, voters: set<nat>, i: nat, n: Node)
    requires NodeOk(g, voters, i, n) && LedOk(g) && n.role == Leader && Broadcast(n).Done?
    ensures forall m :: m in Broadcast(n).out ==> MsgOk(g, voters, m)
  {
    forall j | j in n.prs ensures forall m :: m in SendTo(n, j).out ==> MsgOk(g, voters, m) {
      SendToOk(g, voters, i, n, j);
    }
  }

  lemma BroadcastSafe(g: Hist, voters: set<nat>, i: nat, n: Node)
    requires Local(g, voters, i, n) && n.role == Leader
    ensures Safe(g, g, voters, i, Broadcast(n))
  {
    BroadcastNode(g, voters, i, n);
    BroadcastMessages(g, voters, i, n);
    SafeAsIs(g, voters, i, Broadcast(n));
  }

  lemma HeartbeatMessageOk(g: Hist, voters: set<nat>, n: Node, m: Message)
    requires n.term in g.led && g.led[n.term] == n.log.ents && n.term >= 1 && n.id in voters && m.to in n.prs
    requires CommitOk(g, voters, n.log.ents, n.log.committed, n.term) && PeerOk(g, n, m.to)
    requires m.mtype == MsgHeartbeat && m.from == n.id && m.term == n.term
    requires m.commit == Min(n.prs[m.to].matched, n.log.committed)
    ensures MsgOk(g, voters, m)
  {
    CommitOkShrinks(g, voters, n.log.ents, n.log.committed, m.commit, n.term);
    assert HeartbeatOk(g, voters, m);
  }

  lemma SendHeartbeatSafe(g: Hist, voters: set<nat>, i: nat, n: Node, to: nat, context: Bytes)
    requires Local(g, voters, i, n) && n.role == Leader
    ensures Safe(g, g, voters, i, SendHeartbeat(n, to, context))
  {
    if to in n.prs {
      var beat := Message(MsgHeartbeat, to, n.id, n.term,
                          commit := Min(n.prs[to].matched, n.log.committed), context := context);
      HeartbeatMessageOk(g, voters, n, beat);
      SafeAsIs(g, voters, i, Done(n, {beat}));
    } else {
      SafeAsIs(g, voters, i, Done(n, {}));
    }
  }

  lemma HandleAppendResponseSafe(g: Hist, voters: set<nat>, i: nat, n: Node, m: Message)
    requires Local(g, voters, i, n) && n.role == Leader && MsgOk(g, voters, m)
    requires m.mtype == MsgAppendResponse && m.term == n.term
    ensures n.WellFormed() && Safe(g, g, voters, i, HandleAppendResponse(n, m))
  {
    LocalShape(g, voters, i, n);
    var pr := n.prs[m.from];
    var pr' := if m.reject then pr.MaybeDecrTo(m.index, m.rejectHint) else pr.MaybeUpdate(m.index);
    ResponsePeerOk(g, voters, n, m, pr');
    OnePeerOk(g, voters, i, n, m.from, pr');
    if !m.reject { CommitLeader(g, voters, i, n.(prs := n.prs[m.from := pr'])); }
    SafeAsIs(g, voters, i, HandleAppendResponse(n, m));
  }

  lemma ResponsePeerOk(g: Hist, voters: set<nat>, n: Node, m: Message, pr': Pr)
    requires AcksOk(g, voters) && m.from in n.prs && PeerOk(g, n, m.from)
    requires n.term in g.led && g.led[n.term] == n.log.ents
    requires m.term == n.term && (m.reject || m.index <= Acked(g, m.from, m.term))
    requires pr' == var pr := n.prs[m.from];
                    if m.reject then pr.MaybeDecrTo(m.index, m.rejectHint) else pr.MaybeUpdate(m.index)
    ensures PeerOk(g, n.(prs := n.prs[m.from := pr']), m.from)
  {
    assert Acked(g, m.from, n.term) <= |n.log.ents|;
  }

  lemma AppendEntrySafe(g: Hist, voters: set<nat>, i: nat, n: Node, es: seq<Entry>) returns (g': Hist)
    requires Local(g, voters, i, n) && n.role == Leader
    ensures n.WellFormed() && Safe(g, g', voters, i, Done(AppendEntry(n, es), {}))
  {
    LocalShape(g, voters, i, n);
    g' := Extend(g, voters, i, n, es);
    CommitLeader(g', voters, i, Appended(n, es));
  }

  // ---- replication: the follower's side ----

  /** Where the two logs meet before the new entries. */
  lemma PrefixAgrees(g: Hist, voters: set<nat>, n: Node, m: Message, byMessageTerm: bool)
    requires LedOk(g) && GoodLog(g, n.log.ents, n.term) && n.log.base == 0 && n.log.baseTerm == 0
    requires AppendOk(g, voters, m) && m.term >= 1
    requires n.log.MatchTerm(m.index, if byMessageTerm then m.term else m.logTerm)
    ensures Same(n.log.ents, g.led[m.term], m.index)
  {
    var ents, l := n.log.ents, g.led[m.term];
    if m.index > 0 {
      assert GoodEntry(g, l, m.index - 1, m.term);
      assert 1 <= m.index <= |ents|;
      assert GoodEntry(g, ents, m.index - 1, n.term);
      if !byMessageTerm { LogsMatch(g, ents, n.term, l, m.term, m.index - 1); }
    }
  }

  lemma EntriesContiguous(g: Hist, voters: set<nat>, m: Message)
    requires LedOk(g) && AppendOk(g, voters, m)
    ensures Contiguous(m.entries, m.index + 1)
    ensures forall x :: 0 <= x < |m.entries| ==> m.entries[x].term >= 1
  {
    forall x | 0 <= x < |m.entries|
      ensures m.entries[x].index == m.index + 1 + x && m.entries[x].term >= 1
    {
      assert GoodEntry(g, g.led[m.term], m.index + x, m.term);
    }
  }

  /** Agreement is carried through the entries that match. */
  lemma MatchedAgree(g: Hist, voters: set<nat>, n: Node, m: Message, q: nat)
    requires LedOk(g) && GoodLog(g, n.log.ents, n.term) && n.log.base == 0
    requires AppendOk(g, voters, m) && Same(n.log.ents, g.led[m.term], m.index)
    requires m.index <= q <= m.index + |m.entries|
    requires forall k :: 0 <= k < q - m.index ==> n.log.MatchTerm(m.index + 1 + k, m.entries[k].term)
    ensures Same(n.log.ents, g.led[m.term], q)
  {
    if q > m.index {
      EntriesContiguous(g, voters, m);
      var k := q - m.index - 1;
      assert n.log.MatchTerm(m.index + 1 + k, m.entries[k].term);
      LogsMatch(g, n.log.ents, n.term, g.led[m.term], m.term, q - 1);
    }
  }

  /** What an accepted append leaves: the old log if nothing conflicted, else the leader's log up to
      the last new entry, cut in strictly above the commit mark. */
  ghost predicate MergedOver(g: Hist, n: Node, m: Message, es': seq<Entry>, conflict: nat) {
    var p := m.index + |m.entries|;
    && m.term in g.led && Same(es', g.led[m.term], p)
    && (conflict == 0 ==> es' == n.log.ents)
    && (conflict != 0 ==>
          && n.log.committed < conflict && |es'| == p && 1 <= conflict <= p
          && Same(n.log.ents, es', conflict - 1)
          && !(conflict <= |n.log.ents| && n.log.ents[conflict - 1] == g.led[m.term][conflict - 1]))
  }

  /** No entry conflicts. */
  lemma MergeNothing(g: Hist, voters: set<nat>, n: Node, m: Message)
    requires LedOk(g) && GoodLog(g, n.log.ents, n.term) && n.log.base == 0
    requires AppendOk(g, voters, m) && Same(n.log.ents, g.led[m.term], m.index)
    requires n.log.FindConflict(m.entries) == 0
    ensures MergedOver(g, n, m, n.log.ents, 0)
  {
    EntriesContiguous(g, voters, m);
    FindConflictIsFirst(n.log, m.entries, m.index + 1);
    MatchedAgree(g, voters, n, m, m.index + |m.entries|);
  }

  /** The first conflict lies above whatever is committed. */
  lemma ConflictAbove(g: Hist, voters: set<nat>, n: Node, m: Message, c: nat)
    requires LedOk(g) && GoodLog(g, n.log.ents, n.term) && n.log.base == 0
    requires AppendOk(g, voters, m) && Same(n.log.ents, g.led[m.term], m.index)
    requires Same(n.log.ents, g.led[m.term], n.log.committed)
    requires c == n.log.FindConflict(m.entries) && c != 0
    ensures n.log.committed < c && m.index < c <= m.index + |m.entries|
    ensures Same(n.log.ents, g.led[m.term], c - 1)
    ensures !(c <= |n.log.ents| && n.log.ents[c - 1] == g.led[m.term][c - 1])
  {
    EntriesContiguous(g, voters, m);
    FindConflictIsFirst(n.log, m.entries, m.index + 1);
    MatchedAgree(g, voters, n, m, c - 1);
    assert m.entries[c - m.index - 1] == g.led[m.term][c - 1];
  }

  lemma MergeSuffix(l: Log, m: Message, c: nat)
    requires l.base == 0 && Contiguous(m.entries, m.index + 1)
    requires l.committed < c && m.index < c <= m.index + |m.entries| && c - 1 <= |l.ents|
    ensures var suffix := m.entries[c - (m.index + 1)..];
            l.CanOverwrite(suffix) && l.Overwrite(suffix) == l.(ents := l.ents[..c - 1] + suffix)
  {
    assert m.entries[c - (m.index + 1)..][0] == m.entries[c - m.index - 1];
  }

  lemma MergedEntries(ents: seq<Entry>, led: seq<Entry>, m: Message, c: nat)
    requires m.index < c <= m.index + |m.entries| <= |led| && Same(ents, led, c - 1)
    requires forall x :: 0 <= x < |m.entries| ==> m.entries[x] == led[m.index + x]
    ensures var es' := ents[..c - 1] + m.entries[c - (m.index + 1)..];
            |es'| == m.index + |m.entries| && Same(es', led, |es'|) && Same(ents, es', c - 1)
  {
    var es' := ents[..c - 1] + m.entries[c - (m.index + 1)..];
    forall x | 0 <= x < |es'| ensures es'[x] == led[x] {
      if x >= c - 1 { assert es'[x] == m.entries[x - m.index]; }
    }
  }

  lemma MergeConflict(g: Hist, voters: set<nat>, n: Node, m: Message, c: nat)
    requires n.log.base == 0 && Contiguous(m.entries, m.index + 1) && AppendOk(g, voters, m)
    requires n.log.committed < c && m.index < c <= m.index + |m.entries|
    requires Same(n.log.ents, g.led[m.term], c - 1)
    requires !(c <= |n.log.ents| && n.log.ents[c - 1] == g.led[m.term][c - 1])
    ensures var suffix := m.entries[c - (m.index + 1)..];
            && n.log.CanOverwrite(suffix)
            && n.log.Overwrite(suffix) == n.log.(ents := n.log.ents[..c - 1] + suffix)
            && MergedOver(g, n, m, n.log.ents[..c - 1] + suffix, c)
  {
    MergeSuffix(n.log, m, c);
    MergedEntries(n.log.ents, g.led[m.term], m, c);
  }

  lemma SuffixFrom(l: Log, idx: nat, es: seq<Entry>, c: nat)
    requires c == l.FindConflict(es) && l.committed < c && idx < c <= idx + |es|
    ensures l.ConflictFits(idx, es) && l.NewSuffix(idx, es) == es[c - (idx + 1)..]
  {
  }

  lemma MergeCut(g: Hist, voters: set<nat>, n: Node, m: Message, c: nat)
    requires n.log.base == 0 && Contiguous(m.entries, m.index + 1) && AppendOk(g, voters, m)
    requires c == n.log.FindConflict(m.entries) && n.log.committed < c && m.index < c <= m.index + |m.entries|
    requires Same(n.log.ents, g.led[m.term], c - 1)
    requires !(c <= |n.log.ents| && n.log.ents[c - 1] == g.led[m.term][c - 1])
    ensures n.log.ConflictFits(m.index, m.entries) && n.log.CanOverwrite(n.log.NewSuffix(m.index, m.entries))
    ensures var l := n.log.Overwrite(n.log.NewSuffix(m.index, m.entries));
            l == n.log.(ents := l.ents) && MergedOver(g, n, m, l.ents, c)
  {
    SuffixFrom(n.log, m.index, m.entries, c);
    var suffix := m.entries[c - (m.index + 1)..];
    MergeConflict(g, voters, n, m, c);
    assert n.log.Overwrite(n.log.NewSuffix(m.index, m.entries)).ents == n.log.ents[..c - 1] + suffix;
  }

  /** The plan is carried out from the first conflict on. */
  lemma MergeSome(g: Hist, voters: set<nat>, n: Node, m: Message)
    requires LedOk(g) && GoodLog(g, n.log.ents, n.term) && n.log.base == 0 && Contiguous(m.entries, m.index + 1)
    requires AppendOk(g, voters, m) && Same(n.log.ents, g.led[m.term], m.index)
    requires Same(n.log.ents, g.led[m.term], n.log.committed) && n.log.FindConflict(m.entries) != 0
    ensures n.log.ConflictFits(m.index, m.entries) && n.log.CanOverwrite(n.log.NewSuffix(m.index, m.entries))
    ensures var l := n.log.Overwrite(n.log.NewSuffix(m.index, m.entries));
            l == n.log.(ents := l.ents) && MergedOver(g, n, m, l.ents, n.log.FindConflict(m.entries))
  {
    var c := n.log.FindConflict(m.entries);
    ConflictAbove(g, voters, n, m, c);
    MergeCut(g, voters, n, m, c);
  }

  /** The log after the merge, with everything the append insists on. */
  lemma MergePlan(g: Hist, voters: set<nat>, n: Node, m: Message)
    requires LedOk(g) && GoodLog(g, n.log.ents, n.term) && n.log.base == 0 && Contiguous(m.entries, m.index + 1)
    requires AppendOk(g, voters, m) && Same(n.log.ents, g.led[m.term], m.index)
    requires Same(n.log.ents, g.led[m.term], n.log.committed)
    ensures n.log.ConflictFits(m.index, m.entries) && n.log.CanOverwrite(n.log.NewSuffix(m.index, m.entries))
    ensures var l := n.log.Overwrite(n.log.NewSuffix(m.index, m.entries));
            l == n.log.(ents := l.ents) && MergedOver(g, n, m, l.ents, n.log.FindConflict(m.entries))
  {
    if n.log.FindConflict(m.entries) == 0 {
      MergeNothing(g, voters, n, m);
    } else {
      MergeSome(g, voters, n, m);
    }
  }

  lemma MaybeAppendMerges(g: Hist, voters: set<nat>, n: Node, m: Message, term: nat)
    requires LedOk(g) && GoodLog(g, n.log.ents, n.term) && n.log.base == 0
    requires AppendOk(g, voters, m) && Same(n.log.ents, g.led[m.term], m.index)
    requires Same(n.log.ents, g.led[m.term], n.log.committed)
    requires n.log.MatchTerm(m.index, term)
    ensures var p := m.index + |m.entries|;
            var r := n.log.MaybeAppend(m.index, term, m.commit, m.entries);
            && r.Accepted? && r.last == p
            && r.log == n.log.(ents := r.log.ents, committed := Max(n.log.committed, Min(m.commit, p)))
            && MergedOver(g, n, m, r.log.ents, n.log.FindConflict(m.entries))
  {
    EntriesContiguous(g, voters, m);
    MergePlan(g, voters, n, m);
    AppendAccepted(n.log, m.index, term, m.commit, m.entries);
  }

  /** What the node acknowledged before survives the merge, unless this very leader departed from it. */
  lemma MergeKeeps(g: Hist, i: nat, n: Node, m: Message, es': seq<Entry>, conflict: nat)
    requires KeepOk(g, i, n.log.ents, n.term) && m.term == n.term && n.term in g.led
    requires MergedOver(g, n, m, es', conflict)
    ensures forall t: nat, k: nat :: t <= n.term && 0 < k <= Acked(g, i, t) ==> Kept(g, es', t, k, n.term)
  {
    forall t: nat, k: nat | t <= n.term && 0 < k <= Acked(g, i, t) ensures Kept(g, es', t, k, n.term) {
      assert Kept(g, n.log.ents, t, k, n.term);
      if conflict != 0 && Same(g.led[t], n.log.ents, k) {
        if k < conflict {
          assert Same(g.led[t], es', k);
        } else {
          assert !Same(g.led[t], g.led[n.term], k);
          assert t < n.term;
          assert Departs(g, t, k, n.term, n.term);
        }
      }
    }
  }

  lemma MergeCommits(g: Hist, voters: set<nat>, n: Node, m: Message, es': seq<Entry>, conflict: nat)
    requires CommitOk(g, voters, n.log.ents, n.log.committed, n.term) && n.log.committed <= |n.log.ents|
    requires m.term == n.term && AppendOk(g, voters, m) && MergedOver(g, n, m, es', conflict)
    ensures var c := Max(n.log.committed, Min(m.commit, m.index + |m.entries|));
            n.log.committed <= c <= |es'| && CommitOk(g, voters, es', c, n.term)
  {
    var mark := Min(m.commit, m.index + |m.entries|);
    GrowsRefl(g);
    if mark > n.log.committed {
      CommitOkShrinks(g, voters, g.led[m.term], m.commit, mark, m.term);
      CommitOkGrows(g, g, voters, g.led[m.term], es', mark, m.term, n.term);
    } else {
      CommitOkGrows(g, g, voters, n.log.ents, es', n.log.committed, n.term, n.term);
    }
  }

  lemma AcceptSafe(g: Hist, voters: set<nat>, i: nat, n: Node, m: Message, term: nat) returns (g': Hist)
    requires Local(g, voters, i, n) && AppendOk(g, voters, m) && m.term == n.term && n.role == Follower
    requires Same(n.log.ents, g.led[m.term], m.index) && n.log.MatchTerm(m.index, term)
    ensures var r := n.log.MaybeAppend(m.index, term, m.commit, m.entries);
            && r.Accepted? && Advance(g, g', i) && Local(g', voters, i, n.(log := r.log))
            && r.last <= Acked(g', i, n.term)
  {
    CommittedInLeader(g, voters, n.log.ents, n.log.committed, n.term, m.term);
    MaybeAppendMerges(g, voters, n, m, term);
    var r := n.log.MaybeAppend(m.index, term, m.commit, m.entries);
    var conflict := n.log.FindConflict(m.entries);
    MergeKeeps(g, i, n, m, r.log.ents, conflict);
    MergeCommits(g, voters, n, m, r.log.ents, conflict);
    g' := Follow(g, voters, i, n, r.log.ents, r.log.committed, r.last);
  }

  lemma AlreadyCommittedSafe(g: Hist, voters: set<nat>, i: nat, n: Node) returns (g': Hist)
    requires Local(g, voters, i, n) && n.term in g.led && n.role == Follower
    ensures Advance(g, g', i) && Local(g', voters, i, n) && n.log.committed <= Acked(g', i, n.term)
  {
    CommittedInLeader(g, voters, n.log.ents, n.log.committed, n.term, n.term);
    g' := Follow(g, voters, i, n, n.log.ents, n.log.committed, n.log.committed);
    assert n.(log := n.log.(ents := n.log.ents, committed := n.log.committed)) == n;
  }

  lemma ResponseSafe(g: Hist, g': Hist, voters: set<nat>, i: nat, n: Node, m: Message, o: Outcome)
    requires Advance(g, g', i) && Local(g', voters, i, n) && o == Done(n, {m})
    requires m.mtype == MsgAppendResponse && m.from == i && m.term == n.term && m.term >= 1
    requires m.reject || m.index <= Acked(g', i, n.term)
    ensures Safe(g, g', voters, i, o)
  {
  }

  lemma AnswerCommitted(g: Hist, voters: set<nat>, i: nat, n: Node, m: Message, ch: Choice) returns (g': Hist)
    requires Local(g, voters, i, n) && n.term in g.led && n.role == Follower && n.term >= 1
    requires m.index < n.log.committed
    ensures Safe(g, g', voters, i, HandleAppend(n, m, ch))
  {
    g' := AlreadyCommittedSafe(g, voters, i, n);
    var resp := Message(MsgAppendResponse, m.from, n.id, n.term, index := n.log.committed);
    ResponseSafe(g, g', voters, i, n, resp, HandleAppend(n, m, ch));
  }

  lemma HandledAccepting(n: Node, m: Message, ch: Choice, r: AppendResult)
    requires m.index >= n.log.committed && r.Accepted?
    requires r == n.log.MaybeAppend(m.index, if ch.byMessageTerm then m.term else m.logTerm, m.commit, m.entries)
    ensures HandleAppend(n, m, ch) ==
            Done(n.(log := r.log), {Message(MsgAppendResponse, m.from, n.id, n.term, index := r.last)})
  {
  }

  lemma AnswerAccepted(g: Hist, voters: set<nat>, i: nat, n: Node, m: Message, ch: Choice, term: nat) returns (g': Hist)
    requires Local(g, voters, i, n) && MsgOk(g, voters, m)
    requires m.mtype == MsgAppend && m.term == n.term && n.role == Follower
    requires m.index >= n.log.committed && n.log.MatchTerm(m.index, term)
    requires term == if ch.byMessageTerm then m.term else m.logTerm
    ensures Safe(g, g', voters, i, HandleAppend(n, m, ch))
  {
    PrefixAgrees(g, voters, n, m, ch.byMessageTerm);
    g' := AcceptSafe(g, voters, i, n, m, term);
    var r := n.log.MaybeAppend(m.index, term, m.commit, m.entries);
    var resp := Message(MsgAppendResponse, m.from, n.id, n.term, index := r.last);
    HandledAccepting(n, m, ch, r);
    ResponseSafe(g, g', voters, i, n.(log := r.log), resp, HandleAppend(n, m, ch));
  }

  lemma AnswerRejected(g: Hist, voters: set<nat>, i: nat, n: Node, m: Message, ch: Choice, term: nat)
    requires Local(g, voters, i, n) && n.term >= 1
    requires m.index >= n.log.committed && !n.log.MatchTerm(m.index, term)
    requires term == if ch.byMessageTerm then m.term else m.logTerm
    ensures Safe(g, g, voters, i, HandleAppend(n, m, ch))
  {
    var resp := Message(MsgAppendResponse, m.from, n.id, n.term, index := m.index, reject := true,
                        rejectHint := n.log.LastIndex());
    AdvanceRefl(g, i);
    ResponseSafe(g, g, voters, i, n, resp, HandleAppend(n, m, ch));
  }

  lemma HandleAppendSafe(g: Hist, voters: set<nat>, i: nat, n: Node, m: Message, ch: Choice) returns (g': Hist)
    requires Local(g, voters, i, n) && MsgOk(g, voters, m)
    requires m.mtype == MsgAppend && m.term == n.term && n.role == Follower
    ensures Safe(g, g', voters, i, HandleAppend(n, m, ch))
  {
    var term := if ch.byMessageTerm then m.term else m.logTerm;
    if m.index < n.log.committed {
      g' := AnswerCommitted(g, voters, i, n, m, ch);
    } else if n.log.MatchTerm(m.index, term) {
      g' := AnswerAccepted(g, voters, i, n, m, ch, term);
    } else {
      g' := g;
      AnswerRejected(g, voters, i, n, m, ch, term);
    }
  }

  /** A heartbeat only commits what its receiver has acknowledged, and so still holds. */
  lemma HeartbeatHeld(g: Hist, voters: set<nat>, i: nat, n: Node, m: Message)
    requires KeepOk(g, i, n.log.ents, n.term) && HeartbeatOk(g, voters, m) && m.term == n.term && m.to == i
    ensures m.commit <= |n.log.ents| && CommitOk(g, voters, n.log.ents, m.commit, n.term)
  {
    if m.commit > 0 {
      assert Kept(g, n.log.ents, m.term, m.commit, n.term);
      GrowsRefl(g);
      CommitOkGrows(g, g, voters, g.led[m.term], n.log.ents, m.commit, m.term, n.term);
    }
  }

  lemma HeartbeatNode(g: Hist, voters: set<nat>, i: nat, n: Node, m: Message)
    requires NodeOk(g, voters, i, n) && HeartbeatOk(g, voters, m) && m.term == n.term && m.to == i
    ensures n.log.CanCommit(m.commit) && NodeOk(g, voters, i, n.(log := n.log.CommitTo(m.commit)))
  {
    HeartbeatHeld(g, voters, i, n, m);
    if m.commit > n.log.committed {
      CommitMark(g, voters, i, n, m.commit);
    } else {
      assert n.(log := n.log.CommitTo(m.commit)) == n;
    }
  }

  lemma HeartbeatAnswer(g: Hist, voters: set<nat>, i: nat, n: Node, resp: Message)
    requires Local(g, voters, i, n) && resp.mtype == MsgHeartbeatResponse
    requires resp.from == i && resp.term == n.term && resp.term >= 1
    ensures Safe(g, g, voters, i, Done(n, {resp}))
  {
    assert MsgOk(g, voters, resp);
    SafeAsIs(g, voters, i, Done(n, {resp}));
  }

  lemma HandleHeartbeatSafe(g: Hist, voters: set<nat>, i: nat, n: Node, m: Message)
    requires Local(g, voters, i, n) && MsgOk(g, voters, m)
    requires m.mtype == MsgHeartbeat && m.term == n.term && m.to == i
    ensures Safe(g, g, voters, i, HandleHeartbeat(n, m))
  {
    HeartbeatNode(g, voters, i, n, m);
    var resp := Message(MsgHeartbeatResponse, m.from, n.id, n.term, context := m.context);
    HeartbeatAnswer(g, voters, i, n.(log := n.log.CommitTo(m.commit)), resp);
  }
}
