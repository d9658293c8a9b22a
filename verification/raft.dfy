/** `Raft`: the object that lives through elections and replication. Every method is proved to make of
    the object what `NodeSpec` says of its value, and to queue exactly the messages said there. */
module RaftNode {
  import opened RaftTypes
  import opened AbstractLog
  import opened ProgressSpec
  import opened Quorum
  import opened PeerSet
  import opened ReadIndex
  import opened MemoryStorage
  import opened TwoTierLog
  import N = NodeSpec

  /** The records after all but those of `todo` were reset, in a log that ends at `last`. */
  ghost function PartlyReset(prs: map<nat, Pr>, id: nat, last: nat, todo: set<nat>): map<nat, Pr> {
    map j | j in prs ::
      if j in todo then prs[j]
      else if j == id then prs[j].Reset(last + 1).(matched := last)
      else prs[j].Reset(last + 1)
  }

  /** Every record is that of a peer of which nothing is known, to be probed from behind the log's end; the
      own one matches the log. */
  predicate Afresh(was: map<nat, Pr>, prs: map<nat, Pr>, id: nat, last: nat) {
    && prs.Keys == was.Keys
    && forall j :: j in prs ==>
         prs[j] == Pr(if j == id then last else 0, last + 1, Probe, false, 0, false, [], was[j].cap)
  }

  /** What is left of a node after `reset`: its log and its settings, the vote if the term stays, and for
      every peer a fresh record. */
  lemma ResetMeans(n: N.Node, term: nat)
    ensures var m := N.Reset(n, term);
            && m.term == term && m.vote == (if n.term == term then n.vote else INVALID_ID)
            && m.leaderId == INVALID_ID && m.votes == map[] && m.role == n.role
            && m.log == n.log && m.id == n.id && m.voters == n.voters
            && Afresh(n.prs, m.prs, n.id, n.log.LastIndex())
  {
  }

  lemma PartlyResetStep(prs: map<nat, Pr>, id: nat, last: nat, todo: set<nat>, j: nat)
    requires j in todo && j in prs
    ensures PartlyReset(prs, id, last, todo)[j] == prs[j]
    ensures PartlyReset(prs, id, last, todo - {j}) ==
            PartlyReset(prs, id, last, todo)[
              j := if j == id then prs[j].Reset(last + 1).(matched := last) else prs[j].Reset(last + 1)]
  {
  }

  ghost function PostedIn(msgs: seq<Message>, from: nat): set<Message> {
    set k | from <= k < |msgs| :: msgs[k]
  }

  lemma PostedOneMore(msgs: seq<Message>, m: Message, from: nat)
    requires from <= |msgs|
    ensures PostedIn(msgs + [m], from) == PostedIn(msgs, from) + {m}
  {
    var longer := msgs + [m];
    assert longer[|msgs|] == m;
    forall x | x in PostedIn(msgs, from) ensures x in PostedIn(longer, from) {
      var k :| from <= k < |msgs| && msgs[k] == x;
      assert longer[k] == x;
    }
  }

  lemma PostedMore(was: seq<Message>, msgs: seq<Message>, from: nat)
    requires from <= |was| && was <= msgs
    ensures PostedIn(msgs, from) == PostedIn(was, from) + PostedIn(msgs, |was|)
  {
    forall x | x in PostedIn(was, from) ensures x in PostedIn(msgs, from) {
      var k :| from <= k < |was| && was[k] == x;
      assert msgs[k] == x;
    }
    forall x | x in PostedIn(msgs, from) ensures x in PostedIn(was, from) + PostedIn(msgs, |was|) {
      var k :| from <= k < |msgs| && msgs[k] == x;
      if k < |was| { assert was[k] == x; }
    }
  }

  /** The vote messages carry the term they ask or answer for; all others get the sender's. */
  predicate IsVoteMessage(t: MessageType) {
    t in {MsgRequestVote, MsgRequestPreVote, MsgRequestVoteResponse, MsgRequestPreVoteResponse}
  }

  /** Proposals and read requests are forwarded without a term. */
  predicate GetsTerm(t: MessageType) { !IsVoteMessage(t) && t != MsgPropose && t != MsgReadIndex }

  /** The vote requests to the nodes of `who`, all alike but for the addressee. */
  ghost function RequestsTo(request: Message, who: set<nat>): set<Message> {
    set j | j in who && j != request.from :: request.(to := j)
  }

  lemma RequestsToStep(request: Message, who: set<nat>, j: nat)
    ensures RequestsTo(request, who + {j}) ==
            RequestsTo(request, who) + if j != request.from then {request.(to := j)} else {}
  {
    if j != request.from { assert request.(to := j) in RequestsTo(request, who + {j}); }
    forall x | x in RequestsTo(request, who) ensures x in RequestsTo(request, who + {j}) {
      var i :| i in who && i != request.from && x == request.(to := i);
      assert i in who + {j};
    }
  }

  lemma RequestsAreVoteRequests(n: N.Node, mtype: MessageType, term: nat)
    ensures RequestsTo(N.VoteRequest(n, mtype, term, 0), n.voters) == N.VoteRequests(n, mtype, term)
  {
    var request := N.VoteRequest(n, mtype, term, 0);
    forall j ensures request.(to := j) == N.VoteRequest(n, mtype, term, j) { }
  }

  // ---- a broadcast in progress ----

  ghost predicate CanBroadcast(n: N.Node) {
    forall j :: j in n.prs && j != n.id ==> N.SendTo(n, j).Sending?
  }

  /** The records when only the peers of `todo` are still to be sent to. */
  ghost function PartlySent(n: N.Node, todo: set<nat>): map<nat, Pr>
    requires CanBroadcast(n)
  {
    map j | j in n.prs :: if j in todo || j == n.id then n.prs[j] else N.SendTo(n, j).pr
  }

  ghost function SentTo(n: N.Node, who: set<nat>): set<Message>
    requires CanBroadcast(n)
  {
    set j, m | j in who && j in n.prs && j != n.id && m in N.SendTo(n, j).out :: m
  }

  /** What was sent when only the peers of `todo` are still to be sent to. */
  ghost function SentBut(n: N.Node, todo: set<nat>): set<Message>
    requires CanBroadcast(n)
  {
    SentTo(n, n.prs.Keys - {n.id} - todo)
  }

  lemma SentButStep(n: N.Node, todo: set<nat>, j: nat)
    requires CanBroadcast(n) && j in n.prs && j != n.id && j in todo
    ensures SentBut(n, todo - {j}) == SentBut(n, todo) + N.SendTo(n, j).out
  {
    assert n.prs.Keys - {n.id} - (todo - {j}) == n.prs.Keys - {n.id} - todo + {j};
  }

  lemma PartlySentStep(n: N.Node, todo: set<nat>, j: nat)
    requires CanBroadcast(n) && j in todo && j in n.prs && j != n.id
    ensures PartlySent(n, todo)[j] == n.prs[j]
    ensures PartlySent(n, todo - {j}) == PartlySent(n, todo)[j := N.SendTo(n, j).pr]
  {
  }

  /** What is sent to one peer does not depend on the records of the others. */
  lemma SendToAlone(n: N.Node, prs: map<nat, Pr>, j: nat)
    requires j in n.prs && j in prs && prs[j] == n.prs[j]
    ensures N.SendTo(n.(prs := prs), j) == N.SendTo(n, j)
  {
  }

  lemma BroadcastStarts(n: N.Node)
    requires N.Broadcast(n).Done?
    ensures CanBroadcast(n) && n == n.(prs := PartlySent(n, n.prs.Keys - {n.id}))
    ensures SentBut(n, n.prs.Keys - {n.id}) == {}
  {
    assert PartlySent(n, n.prs.Keys - {n.id}) == n.prs;
  }

  /** One peer's turn in a broadcast. */
  lemma BroadcastStep(n: N.Node, todo: set<nat>, j: nat)
    requires CanBroadcast(n) && j in todo && j in n.prs && j != n.id
    ensures var now := n.(prs := PartlySent(n, todo));
            && N.SendTo(now, j) == N.SendTo(n, j)
            && N.SendAppend(now, j) == N.Done(n.(prs := PartlySent(n, todo - {j})), N.SendTo(n, j).out)
  {
    PartlySentStep(n, todo, j);
    SendToAlone(n, PartlySent(n, todo), j);
  }

  lemma BroadcastWhole(n: N.Node)
    requires CanBroadcast(n)
    ensures N.Broadcast(n) == N.Done(n.(prs := PartlySent(n, {})), SentBut(n, {}))
  {
    assert n.prs.Keys - {n.id} - {} == n.prs.Keys - {n.id};
  }

  // ---- reading the log ----

  lemma UnlimitedSlice(l: Log, low: nat, high: nat)
    requires l.base < low <= high <= l.LastIndex() + 1
    ensures l.Slice(low, high, NO_LIMIT) == Ok(l.Range(low, high))
  {
  }

  // ---- counting votes ----

  /** What a campaign comes to after the node voted for itself. */
  lemma CampaignCases(n: N.Node, pre: bool)
    requires n.WellFormed() && !n.role.Leader?
    ensures var c := N.RegisterVote(if pre then N.BecomePreCandidate(n) else N.BecomeCandidate(n), n.id, true);
            && c.WellFormed()
            && (if pre then N.CampaignPreElection(n) else N.CampaignElection(n)) ==
               if !N.Elected(c) then
                 N.Done(c, N.VoteRequests(c, if pre then MsgRequestPreVote else MsgRequestVote,
                                          if pre then c.term + 1 else c.term))
               else if pre then N.CampaignElection(c) else N.Done(N.BecomeLeader(c), {})
  {
  }

  /** What a candidate does with a message: it follows a leader of its term, counts an answer meant for
      its role, and ignores everything else. */
  lemma StepCandidateCases(n: N.Node, m: Message, ch: N.Choice)
    requires n.WellFormed() && (n.role.PreCandidate? || n.role.Candidate?)
    ensures m.mtype in {MsgAppend, MsgHeartbeat} && m.term != n.term ==> N.StepCandidate(n, m, ch).Panic?
    ensures m.mtype in {MsgAppend, MsgHeartbeat} && m.term == n.term && !ch.byMessageTerm ==>
              var f := N.BecomeFollower(n, m.term, m.from);
              N.StepCandidate(n, m, ch) ==
              if m.mtype == MsgAppend then N.HandleAppend(f, m, N.AS_MEANT) else N.HandleHeartbeat(f, m)
    ensures m.mtype !in {MsgAppend, MsgHeartbeat} ==>
              N.StepCandidate(n, m, ch) ==
              if m.mtype == (if n.role.PreCandidate? then MsgRequestPreVoteResponse else MsgRequestVoteResponse)
              then N.CountVote(n, m, ch) else N.Done(n, {})
  {
  }

  /** What a candidate does once it has registered an answer. */
  lemma CountVoteCases(n: N.Node, m: Message, ch: N.Choice)
    requires n.WellFormed() && (n.role.PreCandidate? || n.role.Candidate?)
    ensures var c := N.RegisterVote(n, m.from, !m.reject);
            && c.WellFormed()
            && N.CountVote(n, m, ch) ==
               if !N.Elected(c) then N.Done(if ch.giveUp then N.BecomeFollower(c, c.term, INVALID_ID) else c, {})
               else if n.role.PreCandidate? then N.CampaignElection(c)
               else N.Broadcast(N.BecomeLeader(c))
  {
  }

  /** The two answers to a vote request of a term that is not 0. */
  lemma VoteCases(n: N.Node, m: Message)
    requires N.HandleVoteRequest(n, m).Done?
    ensures N.HandleVoteRequest(n, m) ==
            if N.CanVote(n, m) && n.log.IsUpToDate(m.index, m.logTerm) then
              N.Done(if m.mtype == MsgRequestVote then n.(vote := m.from) else n,
                     {Message(N.VoteRespType(m.mtype), m.from, n.id, m.term)})
            else N.Done(n, {Message(N.VoteRespType(m.mtype), m.from, n.id, n.term, reject := true)})
  {
  }

  /** The answers to an append beyond what is committed. */
  lemma AppendCases(n: N.Node, m: Message)
    requires m.index >= n.log.committed && N.HandleAppend(n, m, N.AS_MEANT).Done?
    ensures var r := n.log.MaybeAppend(m.index, m.logTerm, m.commit, m.entries);
            && !r.Panicked?
            && N.HandleAppend(n, m, N.AS_MEANT) ==
               if r.Accepted? then
                 N.Done(n.(log := r.log), {Message(MsgAppendResponse, m.from, n.id, n.term, index := r.last)})
               else
                 N.Done(n, {Message(MsgAppendResponse, m.from, n.id, n.term, index := m.index, reject := true,
                                    rejectHint := n.log.LastIndex())})
  {
  }

  lemma ElectedMeant(n: N.Node)
    ensures StatusMeant(|AcceptedIn(n.votes)|, |RejectedIn(n.votes)|, Majority(|n.voters|)).Elected? <==> N.Elected(n)
  {
    assert N.Backers(n) == AcceptedIn(n.votes);
  }

  lemma ResetPeersIs(n: N.Node)
    ensures PartlyReset(n.prs, n.id, n.log.LastIndex(), {}) == N.ResetPeers(n)
  {
  }

  lemma StampedContiguous(es: seq<Entry>, term: nat, first: nat)
    ensures Contiguous(N.Stamped(es, term, first), first)
  {
  }

  lemma OverwriteEnd(l: Log, es: seq<Entry>)
    requires l.WellFormed() && l.base <= l.committed && (es != [] ==> es[0].index == l.LastIndex() + 1)
    ensures l.CanOverwrite(es) && l.Overwrite(es) == l.(ents := l.ents + es)
  {
    assert l.ents[..|l.ents|] == l.ents;
    if es == [] { assert l.ents + es == l.ents; }
  }

  /** The context that forces a vote despite a lease: "CampaignTransfer". */
  const CAMPAIGN_TRANSFER: Bytes :=
    [67, 97, 109, 112, 97, 105, 103, 110, 84, 114, 97, 110, 115, 102, 101, 114]

  /** A node that knows its store and its peers only. */
  ghost function Stored(id: nat, storage: MemStorage, prs: ProgressSet, preVote: bool, checkQuorum: bool,
                        maxMsgSize: nat): N.Node
    requires storage.Valid()
    reads storage, prs
  {
    var base := storage.entries[0].index;
    N.Node(id, N.Follower, 0, INVALID_ID, INVALID_ID, map[],
           Log(base, storage.entries[0].term, storage.entries[1..], base, base), prs.progress, prs.voters,
           preVote, checkQuorum, maxMsgSize)
  }

  class Raft {
    const id: nat
    const raftLog: RaftLog
    const prs: ProgressSet
    const preVote: bool
    const checkQuorum: bool
    const maxMsgSize: nat
    const electionTimeout: nat
    var role: N.Role
    var term: nat
    var vote: nat
    var leaderId: nat
    var votes: map<nat, bool>
    var msgs: seq<Message>
    var electionElapsed: nat
    var pendingConfIndex: nat
    var leadTransferee: Option<nat>
    var readOnly: ReadOnly

    ghost predicate Valid()
      reads this`role, this`term, raftLog, raftLog.store, raftLog.unstable, prs
    {
      && raftLog.Valid() && prs.Valid() && prs.voters != {} && id in prs.progress
      && (role.Candidate? || role.Leader? ==> term >= 1)
    }

    /** The node this object stands for. */
    ghost function View(): (n: N.Node)
      requires Valid()
      reads this`role, this`term, this`vote, this`leaderId, this`votes, raftLog, raftLog.store, raftLog.unstable, prs
      ensures n.WellFormed() && n.log.base <= n.log.committed
    {
      raftLog.AbsWellFormed();
      N.Node(id, role, term, vote, leaderId, votes, raftLog.Abs(), prs.progress, prs.voters,
             preVote, checkQuorum, maxMsgSize)
    }

    /** The messages queued since there were `from` of them. */
    ghost function Posted(from: nat): set<Message>
      reads this`msgs
    {
      PostedIn(msgs, from)
    }

    /** `Raft::new` over what is stored, the hard state included: peers and configuration are given,
        nothing else is known of the past but what was applied. */
    constructor (id: nat, storage: MemStorage, prs: ProgressSet, applied: nat, preVote: bool, checkQuorum: bool,
                 maxMsgSize: nat, electionTimeout: nat)
      requires storage.Valid() && prs.Valid() && prs.voters != {} && id in prs.progress
      requires N.Restart(Stored(id, storage, prs, preVote, checkQuorum, maxMsgSize), storage.hardState, applied).Done?
      modifies prs`progress
      ensures Valid() && this.prs == prs && raftLog.store == storage && fresh(raftLog) && fresh(raftLog.unstable)
      ensures N.Done(View(), {}) ==
              N.Restart(old(Stored(id, storage, prs, preVote, checkQuorum, maxMsgSize)), storage.hardState, applied)
      ensures msgs == []
    {
      this.id := id;
      this.prs := prs;
      this.preVote, this.checkQuorum := preVote, checkQuorum;
      this.maxMsgSize, this.electionTimeout := maxMsgSize, electionTimeout;
      role, term, vote, leaderId, votes, msgs, electionElapsed := N.Follower, 0, INVALID_ID, INVALID_ID, map[], [], 0;
      pendingConfIndex, leadTransferee := 0, None;
      readOnly := new ReadOnly();
      raftLog := new RaftLog(storage);
      new;
      Load(storage.hardState, applied);
    }

    /** The end of `Raft::new`, on an object that knows its store only. */
    method Load(hs: RaftTypes.HardState, applied: nat)
      requires Valid() && role.Follower? && term == 0 && vote == INVALID_ID
      requires raftLog.committed == raftLog.applied == View().log.base
      requires N.Restart(View(), hs, applied).Done?
      modifies this, raftLog, prs`progress
      ensures Valid() && N.Done(View(), {}) == N.Restart(old(View()), hs, applied) && msgs == old(msgs)
    {
      if hs != RaftTypes.HardState(0, 0, 0) {
        LoadState(hs);
      }
      if applied > 0 {
        raftLog.AppliedTo(applied);
      }
      BecomeFollower(term, INVALID_ID);
    }

    method LoadState(hs: RaftTypes.HardState)
      requires Valid() && role == N.Follower && raftLog.committed <= hs.commit <= raftLog.LastIndex()
      modifies this, raftLog`committed
      ensures Valid() && msgs == old(msgs)
      ensures View() == old(View()).(term := hs.term, vote := hs.vote, log := old(View()).log.(committed := hs.commit))
    {
      raftLog.committed := hs.commit;
      term := hs.term;
      vote := hs.vote;
    }

    function HardState(): (hs: RaftTypes.HardState)
      requires Valid()
      reads this, raftLog, raftLog.store, raftLog.unstable, prs
      ensures var o := N.Restart(View(), hs, 0);
              && o.Done? && o.node.term == term && o.node.vote == vote
              && o.node.log.committed == raftLog.committed && o.node.log.ents == raftLog.Abs().ents
    {
      RaftTypes.HardState(term, vote, raftLog.committed)
    }

    // ---- role changes ----

    method ResetPeers(last: nat)
      modifies prs`progress
      ensures prs.progress == PartlyReset(old(prs.progress), id, last, {})
    {
      ghost var was := prs.progress;
      var todo := prs.progress.Keys;
      while todo != {}
        invariant todo <= was.Keys && prs.progress == PartlyReset(was, id, last, todo)
        decreases |todo|
      {
        var j :| j in todo;
        PartlyResetStep(was, id, last, todo, j);
        todo := todo - {j};
        var pr := prs.progress[j].Reset(last + 1);
        if j == id {
          pr := pr.(matched := last);
        }
        prs.progress := prs.progress[j := pr];
      }
    }

    /** What `reset` forgets besides vote, leader and peers: timers, a leadership transfer, a pending
        configuration change and all waiting read requests. */
    method ForgetRequests()
      modifies this`electionElapsed, this`leadTransferee, this`pendingConfIndex, this`readOnly
      ensures electionElapsed == 0 && pendingConfIndex == 0 && leadTransferee == None
      ensures readOnly.Valid() && readOnly.Waiters() == []
    {
      electionElapsed := 0;
      leadTransferee := None;
      pendingConfIndex := 0;
      readOnly := new ReadOnly();
    }

    method Reset(t: nat)
      requires Valid() && (role.Candidate? || role.Leader? ==> t >= 1)
      modifies this, prs`progress
      ensures Valid() && View() == N.Reset(old(View()), t) && msgs == old(msgs) && electionElapsed == 0
      ensures pendingConfIndex == 0 && leadTransferee == None && readOnly.Valid() && readOnly.Waiters() == []
    {
      ForgetRequests();
      ResetBallot(t);
      ResetPeers(raftLog.LastIndex());
      ResetPeersIs(old(View()));
    }

    /** The term, and with it the vote, the leader and the answers. */
    method ResetBallot(t: nat)
      modifies this`term, this`vote, this`leaderId, this`votes
      ensures term == t && vote == (if old(term) == t then old(vote) else INVALID_ID)
      ensures leaderId == INVALID_ID && votes == map[]
    {
      if term != t {
        term := t;
        vote := INVALID_ID;
      }
      leaderId := INVALID_ID;
      votes := map[];
    }

    method BecomeFollower(t: nat, leader: nat)
      requires Valid() && (role.Candidate? || role.Leader? ==> t >= 1)
      modifies this, prs`progress
      ensures Valid() && View() == N.BecomeFollower(old(View()), t, leader) && msgs == old(msgs)
      ensures electionElapsed == 0 && readOnly.Valid() && readOnly.Waiters() == []
    {
      Reset(t);
      leaderId := leader;
      role := N.Follower;
    }

    method BecomePreCandidate()
      requires Valid() && !role.Leader?
      modifies this`role, this`votes, this`leaderId
      ensures Valid() && View() == N.BecomePreCandidate(old(View())) && msgs == old(msgs)
    {
      role := N.PreCandidate;
      votes := map[];
      leaderId := INVALID_ID;
    }

    method BecomeCandidate()
      requires Valid() && !role.Leader?
      modifies this, prs`progress
      ensures Valid() && View() == N.BecomeCandidate(old(View())) && msgs == old(msgs) && electionElapsed == 0
    {
      Reset(term + 1);
      vote := id;
      role := N.Candidate;
    }

    method BecomeLeader()
      requires Valid() && !role.Leader? && term >= 1
      modifies this, prs`progress, raftLog, raftLog.unstable
      ensures Valid() && View() == N.BecomeLeader(old(View())) && msgs == old(msgs)
      ensures pendingConfIndex == old(raftLog.LastIndex()) && electionElapsed == 0
    {
      Enthrone();
      AppendEntry([N.EMPTY_ENTRY]);
    }

    /** `become_leader` up to its first entry. */
    method Enthrone()
      requires Valid() && term >= 1
      modifies this, prs`progress
      ensures Valid() && View() == N.Enthroned(old(View())) && msgs == old(msgs) && term >= 1
      ensures pendingConfIndex == old(raftLog.LastIndex()) && electionElapsed == 0
    {
      Reset(term);
      TakeLead();
    }

    /** The node's own marks as a leader. */
    method TakeLead()
      requires Valid() && term >= 1
      modifies this`leaderId, this`role, this`pendingConfIndex, prs`progress
      ensures Valid() && pendingConfIndex == old(raftLog.LastIndex())
      ensures var n := old(View());
              View() == n.(leaderId := id, role := N.Leader, prs := n.prs[id := n.prs[id].BecomeReplicate()])
    {
      leaderId := id;
      role := N.Leader;
      prs.progress := prs.progress[id := prs.progress[id].BecomeReplicate()];
      pendingConfIndex := raftLog.LastIndex();
    }

    method RegisterVote(from: nat, accept: bool)
      requires Valid()
      modifies this`votes
      ensures Valid() && View() == N.RegisterVote(old(View()), from, accept)
    {
      if from !in votes {
        votes := votes[from := accept];
      }
    }

    // ---- the leader's log ----

    method MaybeCommit() returns (advanced: bool)
      requires Valid() && term >= 1
      modifies raftLog`committed
      ensures Valid() && View() == N.MaybeCommit(old(View()))
      ensures advanced == old(View()).log.CommitsAt(MaximalCommitted(old(prs.progress), prs.voters), term)
    {
      var top := prs.MaximalCommittedIndex();
      advanced := raftLog.MaybeCommit(top, term);
    }

    method Stamp(es: seq<Entry>, first: nat) returns (stamped: seq<Entry>)
      ensures stamped == N.Stamped(es, term, first)
    {
      stamped := [];
      for k := 0 to |es|
        invariant stamped == N.Stamped(es, term, first)[..k]
      {
        stamped := stamped + [es[k].(term := term, index := first + k)];
      }
    }

    method AppendEntry(es: seq<Entry>)
      requires Valid() && term >= 1
      modifies prs`progress, raftLog, raftLog.unstable
      ensures Valid() && View() == N.AppendEntry(old(View()), es)
    {
      AppendStamped(es);
      var _ := MaybeCommit();
    }

    /** `append_entry` up to the commit test. */
    method AppendStamped(es: seq<Entry>)
      requires Valid() && term >= 1
      modifies prs`progress, raftLog, raftLog.unstable
      ensures Valid() && View() == N.Appended(old(View()), es)
    {
      ghost var n := View();
      var last := StampAndAppend(es);
      assert View() == n.(log := N.Appended(n, es).log);
      prs.progress := prs.progress[id := prs.progress[id].MaybeUpdate(last)];
    }

    method StampAndAppend(es: seq<Entry>) returns (last: nat)
      requires Valid()
      modifies raftLog, raftLog.unstable
      ensures Valid() && raftLog.Abs() == N.Appended(old(View()), es).log && last == raftLog.Abs().LastIndex()
    {
      var first := raftLog.LastIndex() + 1;
      var stamped := Stamp(es, first);
      StampedContiguous(es, term, first);
      last := AppendAtEnd(stamped);
    }

    method AppendAtEnd(es: seq<Entry>) returns (last: nat)
      requires Valid() && Contiguous(es, raftLog.Abs().LastIndex() + 1)
      modifies raftLog, raftLog.unstable
      ensures Valid() && last == raftLog.Abs().LastIndex()
      ensures raftLog.Abs() == old(raftLog.Abs()).(ents := old(raftLog.Abs()).ents + es)
    {
      ghost var n := View();
      OverwriteEnd(n.log, es);
      last := raftLog.Append(es);
    }

    // ---- sending ----

    /** `send`, with the intended test that a message other than a vote has no term yet. */
    method Send(m: Message)
      requires IsVoteMessage(m.mtype) <==> m.term != 0
      modifies this`msgs
      ensures var sent := m.(from := id, term := if GetsTerm(m.mtype) then term else m.term);
              msgs == old(msgs) + [sent] && Posted(|old(msgs)|) == {sent}
    {
      var sent := m.(from := id);
      if GetsTerm(m.mtype) {
        sent := sent.(term := term);
      }
      msgs := msgs + [sent];
      PostedOneMore(old(msgs), sent, |old(msgs)|);
    }

    /** The loop over the other voters. */
    method SendToVoters(request: Message)
      requires request.mtype in {MsgRequestVote, MsgRequestPreVote} && request.term >= 1 && request.from == id
      modifies this`msgs
      ensures old(msgs) <= msgs && Posted(|old(msgs)|) == RequestsTo(request, prs.voters)
    {
      ghost var from, voters := |msgs|, prs.voters;
      ghost var done: set<nat> := {};
      var todo := prs.voters;
      while todo != {}
        invariant prs.voters == voters && todo <= voters && done == voters - todo
        invariant old(msgs) <= msgs && Posted(from) == RequestsTo(request, done)
        decreases |todo|
      {
        var j :| j in todo;
        RequestsToStep(request, done, j);
        todo := todo - {j};
        done := done + {j};
        if j != id {
          ghost var was := msgs;
          Send(request.(to := j));
          PostedOneMore(was, request.(to := j), from);
        }
      }
      assert done == voters;
    }

    method RequestVotes(mtype: MessageType, t: nat)
      requires Valid() && mtype in {MsgRequestVote, MsgRequestPreVote} && t >= 1
      modifies this`msgs
      ensures Valid() && View() == old(View()) && old(msgs) <= msgs
      ensures Posted(|old(msgs)|) == N.VoteRequests(View(), mtype, t)
    {
      ghost var n := View();
      RequestsAreVoteRequests(n, mtype, t);
      SendToVoters(Message(mtype, 0, id, t, logTerm := raftLog.LastTerm(), index := raftLog.LastIndex()));
    }

    /** The head of `campaign`: the new role and the node's vote for itself. */
    method Nominate(pre: bool) returns (elected: bool)
      requires Valid() && !role.Leader?
      modifies this, prs`progress
      ensures Valid() && msgs == old(msgs) && role == if pre then N.PreCandidate else N.Candidate
      ensures var c := if pre then N.BecomePreCandidate(old(View())) else N.BecomeCandidate(old(View()));
              View() == N.RegisterVote(c, id, true)
      ensures elected == N.Elected(View())
    {
      if pre {
        BecomePreCandidate();
      } else {
        BecomeCandidate();
      }
      elected := VoteForSelf();
    }

    method VoteForSelf() returns (elected: bool)
      requires Valid()
      modifies this`votes
      ensures Valid() && View() == N.RegisterVote(old(View()), id, true) && elected == N.Elected(View())
    {
      RegisterVote(id, true);
      var status := prs.CandidacyStatus(votes);
      ElectedMeant(View());
      elected := status == Elected;
    }

    method Campaign(pre: bool)
      requires Valid() && !role.Leader?
      modifies this, prs`progress, raftLog, raftLog.unstable
      ensures Valid() && old(msgs) <= msgs
      ensures N.Done(View(), Posted(|old(msgs)|)) ==
              if pre then N.CampaignPreElection(old(View())) else N.CampaignElection(old(View()))
      decreases pre, 1
    {
      CampaignCases(View(), pre);
      var elected := Nominate(pre);
      if elected {
        WinAtOnce(pre);
      } else {
        RequestVotes(if pre then MsgRequestPreVote else MsgRequestVote, if pre then term + 1 else term);
      }
    }

    /** The node's own vote was enough. */
    method WinAtOnce(pre: bool)
      requires Valid() && role == if pre then N.PreCandidate else N.Candidate
      modifies this, prs`progress, raftLog, raftLog.unstable
      ensures Valid() && old(msgs) <= msgs
      ensures N.Done(View(), Posted(|old(msgs)|)) ==
              if pre then N.CampaignElection(old(View())) else N.Done(N.BecomeLeader(old(View())), {})
      decreases pre, 0
    {
      if pre {
        Campaign(false);
      } else {
        LeadAtOnce();
      }
    }

    method LeadAtOnce()
      requires Valid() && !role.Leader? && term >= 1
      modifies this, prs`progress, raftLog, raftLog.unstable
      ensures Valid() && old(msgs) <= msgs
      ensures N.Done(View(), Posted(|old(msgs)|)) == N.Done(N.BecomeLeader(old(View())), {})
    {
      BecomeLeader();
      assert Posted(|old(msgs)|) == {};
    }

    method SendAppend(to: nat)
      requires Valid() && to in prs.progress && N.SendTo(View(), to).Sending?
      modifies this`msgs, prs`progress
      ensures Valid() && old(msgs) <= msgs && prs.progress.Keys == old(prs.progress).Keys
      ensures N.Done(View(), Posted(|old(msgs)|)) == N.SendAppend(old(View()), to)
    {
      ghost var n := View();
      var pr := prs.progress[to];
      assert n.prs[to := pr] == n.prs && Posted(|msgs|) == {};
      if pr.IsPaused() {
        assert N.SendTo(n, to) == N.Sending(pr, {});
        return;
      }
      var prevTerm := raftLog.Term(pr.nextIdx - 1);
      var ents := raftLog.Entries(pr.nextIdx, maxMsgSize);
      if ents.Err? {
        assert N.SendTo(n, to) == N.Sending(pr, {});
        return;
      }
      PrepareSendEntries(to, prevTerm.value, ents.value);
    }

    /** `prepare_send_entries` and the `send` after it. */
    method PrepareSendEntries(to: nat, prevTerm: nat, ents: seq<Entry>)
      requires Valid() && to in prs.progress && N.SendTo(View(), to).Sending?
      requires !prs.progress[to].IsPaused() && prs.progress[to].nextIdx >= 1
      requires prevTerm == View().log.TermAt(prs.progress[to].nextIdx - 1)
      requires N.Batch(View(), prs.progress[to].nextIdx) == Ok(ents)
      modifies this`msgs, prs`progress
      ensures Valid() && old(msgs) <= msgs && prs.progress.Keys == old(prs.progress).Keys
      ensures N.Done(View(), Posted(|old(msgs)|)) == N.SendAppend(old(View()), to)
    {
      ghost var n := View();
      var pr := prs.progress[to];
      assert n.prs[to := pr] == n.prs;
      Send(Message(MsgAppend, to, 0, 0, logTerm := prevTerm, index := pr.nextIdx - 1, entries := ents,
                   commit := raftLog.committed));
      ghost var sent := N.AppendMessage(n, to, pr.nextIdx, ents);
      assert Posted(|old(msgs)|) == {sent};
      if ents != [] {
        pr := pr.Sent(ents[|ents| - 1].index);
        prs.progress := prs.progress[to := pr];
      }
      assert N.SendTo(n, to) == N.Sending(pr, {sent});
    }

    method BcastTurn(ghost n: N.Node, ghost todo: set<nat>, ghost from: nat, j: nat)
      requires Valid() && CanBroadcast(n) && j in todo && todo <= n.prs.Keys - {n.id} && from <= |msgs|
      requires View() == n.(prs := PartlySent(n, todo)) && Posted(from) == SentBut(n, todo)
      modifies this`msgs, prs`progress
      ensures Valid() && View() == n.(prs := PartlySent(n, todo - {j}))
      ensures old(msgs) <= msgs && Posted(from) == SentBut(n, todo - {j})
    {
      BroadcastStep(n, todo, j);
      SentButStep(n, todo, j);
      SendAppend(j);
      PostedMore(old(msgs), msgs, from);
    }

    method BcastAppend()
      requires Valid() && N.Broadcast(View()).Done?
      modifies this`msgs, prs`progress
      ensures Valid() && old(msgs) <= msgs
      ensures N.Done(View(), Posted(|old(msgs)|)) == N.Broadcast(old(View()))
    {
      ghost var n, from := View(), |msgs|;
      var todo := prs.progress.Keys - {id};
      BroadcastStarts(n);
      while todo != {}
        invariant Valid() && todo <= n.prs.Keys - {n.id}
        invariant View() == n.(prs := PartlySent(n, todo))
        invariant old(msgs) <= msgs && Posted(from) == SentBut(n, todo)
        decreases |todo|
      {
        var j :| j in todo;
        BcastTurn(n, todo, from, j);
        todo := todo - {j};
      }
      BroadcastWhole(n);
    }

    method SendHeartbeat(to: nat, context: Bytes)
      requires Valid() && to in prs.progress
      modifies this`msgs
      ensures Valid() && old(msgs) <= msgs
      ensures N.Done(View(), Posted(|old(msgs)|)) == N.SendHeartbeat(old(View()), to, context)
    {
      var commit := Min(prs.progress[to].matched, raftLog.committed);
      Send(Message(MsgHeartbeat, to, 0, 0, commit := commit, context := context));
    }

    // ---- following ----

    method HandlerAppendEntries(m: Message)
      requires Valid() && N.HandleAppend(View(), m, N.AS_MEANT).Done?
      modifies this`msgs, raftLog, raftLog.unstable
      ensures Valid() && old(msgs) <= msgs
      ensures N.Done(View(), Posted(|old(msgs)|)) == N.HandleAppend(old(View()), m, N.AS_MEANT)
    {
      if m.index < raftLog.committed {
        Send(Message(MsgAppendResponse, m.from, 0, 0, index := raftLog.committed));
        return;
      }
      TakeEntries(m);
    }

    /** Entries that do not start before what is committed. */
    method TakeEntries(m: Message)
      requires Valid() && N.HandleAppend(View(), m, N.AS_MEANT).Done? && m.index >= raftLog.committed
      modifies this`msgs, raftLog, raftLog.unstable
      ensures Valid() && old(msgs) <= msgs
      ensures N.Done(View(), Posted(|old(msgs)|)) == N.HandleAppend(old(View()), m, N.AS_MEANT)
    {
      AppendCases(View(), m);
      var matched := raftLog.MaybeAppend(m.index, m.logTerm, m.commit, m.entries);
      match matched
      case Some(last) => Send(Message(MsgAppendResponse, m.from, 0, 0, index := last));
      case None =>
        Send(Message(MsgAppendResponse, m.from, 0, 0, index := m.index, reject := true,
                     rejectHint := raftLog.LastIndex()));
    }

    method HandlerHeartbeat(m: Message)
      requires Valid() && N.HandleHeartbeat(View(), m).Done?
      modifies this`msgs, raftLog`committed
      ensures Valid() && old(msgs) <= msgs
      ensures N.Done(View(), Posted(|old(msgs)|)) == N.HandleHeartbeat(old(View()), m)
    {
      raftLog.CommitTo(m.commit);
      Send(Message(MsgHeartbeatResponse, m.from, 0, 0, context := m.context));
    }

    // ---- leading ----

    /** The acknowledgement rule of the repository's README.md. */
    method HandlerAppendResponse(m: Message)
      requires Valid() && term >= 1
      modifies prs`progress, raftLog`committed
      ensures Valid()
      ensures N.Done(View(), {}) == N.HandleAppendResponse(old(View()), m)
    {
      if m.from !in prs.progress {
        return;
      }
      var pr := prs.progress[m.from];
      if m.reject {
        prs.progress := prs.progress[m.from := pr.MaybeDecrTo(m.index, m.rejectHint)];
      } else {
        prs.progress := prs.progress[m.from := pr.MaybeUpdate(m.index)];
        var _ := MaybeCommit();
      }
    }

    // ---- voting ----

    method HandlerVoteRequest(m: Message)
      requires Valid() && m.mtype in {MsgRequestVote, MsgRequestPreVote} && N.HandleVoteRequest(View(), m).Done?
      modifies this
      ensures Valid() && old(msgs) <= msgs
      ensures N.Done(View(), Posted(|old(msgs)|)) == N.HandleVoteRequest(old(View()), m)
      ensures |msgs| == |old(msgs)| + 1
      ensures electionElapsed ==
              if m.mtype == MsgRequestVote && !msgs[|old(msgs)|].reject then 0 else old(electionElapsed)
    {
      VoteCases(View(), m);
      var canVote := vote == m.from || (vote == INVALID_ID && leaderId == INVALID_ID) ||
                     (m.mtype == MsgRequestPreVote && m.term > term);
      if canVote && raftLog.IsUpToDate(m.index, m.logTerm) {
        Send(Message(N.VoteRespType(m.mtype), m.from, 0, m.term));
        RecordVote(m);
      } else {
        Send(Message(N.VoteRespType(m.mtype), m.from, 0, term, reject := true));
      }
    }

    /** Only a real vote is recorded. */
    method RecordVote(m: Message)
      requires Valid()
      modifies this`electionElapsed, this`vote
      ensures Valid() && View() == if m.mtype == MsgRequestVote then old(View()).(vote := m.from) else old(View())
      ensures electionElapsed == if m.mtype == MsgRequestVote then 0 else old(electionElapsed)
    {
      if m.mtype == MsgRequestVote {
        electionElapsed := 0;
        vote := m.from;
      }
    }

    method Lead()
      requires Valid() && !role.Leader? && term >= 1 && N.Broadcast(N.BecomeLeader(View())).Done?
      modifies this, prs`progress, raftLog, raftLog.unstable
      ensures Valid() && old(msgs) <= msgs
      ensures N.Done(View(), Posted(|old(msgs)|)) == N.Broadcast(N.BecomeLeader(old(View())))
    {
      BecomeLeader();
      BcastAppend();
    }

    method Tally(m: Message) returns (status: CandidacyStatus)
      requires Valid()
      modifies this`votes
      ensures Valid() && View() == N.RegisterVote(old(View()), m.from, !m.reject)
      ensures status.Elected? <==> N.Elected(View())
      ensures status.Ineligible? <==> old(GivesUp(m))
    {
      RegisterVote(m.from, !m.reject);
      status := prs.CandidacyStatus(votes);
      ElectedMeant(View());
    }

    /** What the votes were for: a campaign after a pre-campaign, else the lead. */
    method Win()
      requires Valid() && (role.PreCandidate? || role.Candidate?)
      requires role.Candidate? ==> N.Broadcast(N.BecomeLeader(View())).Done?
      modifies this, prs`progress, raftLog, raftLog.unstable
      ensures Valid() && old(msgs) <= msgs
      ensures N.Done(View(), Posted(|old(msgs)|)) ==
              if old(role).PreCandidate? then N.CampaignElection(old(View()))
              else N.Broadcast(N.BecomeLeader(old(View())))
    {
      if role.PreCandidate? {
        Campaign(false);
      } else {
        Lead();
      }
    }

    method CountVote(m: Message, ghost ch: N.Choice)
      requires Valid() && (role.PreCandidate? || role.Candidate?) && N.CountVote(View(), m, ch).Done?
      requires ch.giveUp == GivesUp(m)
      modifies this, prs`progress, raftLog, raftLog.unstable
      ensures Valid() && old(msgs) <= msgs
      ensures N.Done(View(), Posted(|old(msgs)|)) == N.CountVote(old(View()), m, ch)
    {
      CountVoteCases(View(), m, ch);
      var status := Tally(m);
      assert Posted(|msgs|) == {};
      match status
      case Elected => Win();
      case Ineligible => BecomeFollower(term, INVALID_ID);
      case Eligible =>
    }

    /** After this response a quorum of the voters has rejected the candidate. */
    ghost predicate GivesUp(m: Message)
      requires Valid()
      reads this`role, this`term, this`vote, this`leaderId, this`votes, raftLog, raftLog.store, raftLog.unstable, prs
    {
      var c := N.RegisterVote(View(), m.from, !m.reject);
      StatusMeant(|AcceptedIn(c.votes)|, |RejectedIn(c.votes)|, Majority(|c.voters|)).Ineligible?
    }

    /** Another node leads this term: follow it and hear what it says. */
    method FollowLeader(m: Message)
      requires Valid() && m.mtype in {MsgAppend, MsgHeartbeat} && m.term == term
      requires var f := N.BecomeFollower(View(), m.term, m.from);
               if m.mtype == MsgAppend then N.HandleAppend(f, m, N.AS_MEANT).Done? else N.HandleHeartbeat(f, m).Done?
      modifies this, prs`progress, raftLog, raftLog.unstable
      ensures Valid() && old(msgs) <= msgs
      ensures var f := N.BecomeFollower(old(View()), m.term, m.from);
              N.Done(View(), Posted(|old(msgs)|)) ==
              if m.mtype == MsgAppend then N.HandleAppend(f, m, N.AS_MEANT) else N.HandleHeartbeat(f, m)
    {
      BecomeFollower(m.term, m.from);
      if m.mtype == MsgAppend {
        HandlerAppendEntries(m);
      } else {
        HandlerHeartbeat(m);
      }
    }

    method StepCandidate(m: Message, ghost ch: N.Choice)
      requires Valid() && (role.PreCandidate? || role.Candidate?) && N.StepCandidate(View(), m, ch).Done?
      requires ch.giveUp == GivesUp(m) && !ch.byMessageTerm
      modifies this, prs`progress, raftLog, raftLog.unstable
      ensures Valid() && old(msgs) <= msgs
      ensures N.Done(View(), Posted(|old(msgs)|)) == N.StepCandidate(old(View()), m, ch)
    {
      assert Posted(|msgs|) == {};
      StepCandidateCases(View(), m, ch);
      if m.mtype == MsgAppend || m.mtype == MsgHeartbeat {
        FollowLeader(m);
      } else if m.mtype == if role.PreCandidate? then MsgRequestPreVoteResponse else MsgRequestVoteResponse {
        CountVote(m, ch);
      }
    }

    // ---- stepping ----

    method CountConfChanges(es: seq<Entry>) returns (n: nat)
      ensures n != 0 <==> exists e :: e in es && e.etype == EntryConfChange
    {
      n := 0;
      for k := 0 to |es|
        invariant n != 0 <==> exists x :: 0 <= x < k && es[x].etype == EntryConfChange
      {
        if es[k].etype == EntryConfChange {
          n := n + 1;
        }
      }
    }

    method AnyConfChange(es: seq<Entry>) returns (any: bool)
      ensures any == exists e :: e in es && e.etype == EntryConfChange
    {
      var n := CountConfChanges(es);
      any := n != 0;
    }

    /** Whether a configuration change is committed but not yet applied. */
    method PendingConf() returns (pending: bool)
      requires Valid() && raftLog.Abs().base <= raftLog.applied <= raftLog.committed
      ensures pending == N.PendingConfChange(raftLog.Abs())
    {
      var ents := Unapplied();
      pending := AnyConfChange(ents);
      pending := pending && raftLog.committed > raftLog.applied;
    }

    method Unapplied() returns (ents: seq<Entry>)
      requires Valid() && raftLog.Abs().base <= raftLog.applied <= raftLog.committed
      ensures var l := raftLog.Abs();
              l.committed <= l.LastIndex() && ents == l.Range(l.applied + 1, l.committed + 1)
    {
      ghost var l := raftLog.Abs();
      UnlimitedSlice(l, l.applied + 1, l.committed + 1);
      var slice := raftLog.Slice(raftLog.applied + 1, raftLog.committed + 1, NO_LIMIT);
      ents := slice.value;
    }

    method Hup()
      requires Valid() && N.Hup(View()).Done?
      modifies this, prs`progress, raftLog, raftLog.unstable
      ensures Valid() && old(msgs) <= msgs
      ensures N.Done(View(), Posted(|old(msgs)|)) == N.Hup(old(View()))
    {
      assert Posted(|msgs|) == {};
      if !role.Leader? {
        var pending := PendingConf();
        if !pending {
          Campaign(preVote);
        }
      }
    }

    predicate InLease()
      reads this
    {
      checkQuorum && leaderId != INVALID_ID && electionElapsed < electionTimeout
    }

    /** The choices this object makes of those a node's step leaves open. */
    ghost function Chosen(m: Message): N.Choice
      requires Valid()
      reads this, raftLog, raftLog.store, raftLog.unstable, prs
    {
      N.Choice(m.context != CAMPAIGN_TRANSFER && InLease(), GivesUp(m), false)
    }

    /** A message of a lower term is answered at most, never handled. */
    method AnswerStale(m: Message)
      requires Valid() && 0 < m.term < term
      modifies this`msgs
      ensures Valid() && old(msgs) <= msgs
      ensures forall ch :: N.Enter(old(View()), m, ch) == N.Finished(View(), Posted(|old(msgs)|))
    {
      assert Posted(|msgs|) == {};
      if (checkQuorum || preVote) && m.mtype in {MsgHeartbeat, MsgAppend} {
        Send(Message(MsgAppendResponse, m.from, 0, 0));
      } else if m.mtype == MsgRequestPreVote {
        Send(Message(MsgRequestPreVoteResponse, m.from, 0, term, reject := true));
      }
    }

    /** The comparison of terms at the head of `step`, with the lease test guarding the early return. */
    method Enter(m: Message) returns (finished: bool)
      requires Valid()
      modifies this, prs`progress
      ensures Valid() && old(msgs) <= msgs
      ensures N.Enter(old(View()), m, old(Chosen(m))) ==
              if finished then N.Finished(View(), Posted(|old(msgs)|)) else N.Proceed(View())
      ensures !finished ==> msgs == old(msgs)
      ensures m.term > old(term) && m.mtype in {MsgRequestVote, MsgRequestPreVote} ==>
              var lease := old(checkQuorum && leaderId != INVALID_ID && electionElapsed < electionTimeout);
              && (finished <==> lease && m.context != CAMPAIGN_TRANSFER)
              && (finished ==> View() == old(View()) && msgs == old(msgs))
    {
      assert Posted(|msgs|) == {};
      finished := false;
      if m.term == 0 {
      } else if m.term > term {
        if m.mtype in {MsgRequestVote, MsgRequestPreVote} && m.context != CAMPAIGN_TRANSFER && InLease() {
          return true;
        }
        if m.mtype == MsgRequestPreVote || (m.mtype == MsgRequestPreVoteResponse && !m.reject) {
        } else {
          BecomeFollower(m.term, if m.mtype in {MsgAppend, MsgHeartbeat} then m.from else INVALID_ID);
        }
      } else if m.term < term {
        AnswerStale(m);
        finished := true;
      }
    }

    /** A stub in the source; its public handlers are called directly. */
    method StepFollower(m: Message, ghost ch: N.Choice)
      requires Valid() && N.StepFollower(View(), m, ch).Done? && !ch.byMessageTerm
      modifies this`msgs, raftLog, raftLog.unstable
      ensures Valid() && old(msgs) <= msgs
      ensures N.Done(View(), Posted(|old(msgs)|)) == N.StepFollower(old(View()), m, ch)
    {
      assert Posted(|msgs|) == {};
      if m.mtype == MsgAppend {
        HandlerAppendEntries(m);
      } else if m.mtype == MsgHeartbeat {
        HandlerHeartbeat(m);
      }
    }

    /** A stub in the source; only append responses are acted upon. */
    method StepLeader(m: Message)
      requires Valid() && term >= 1
      modifies prs`progress, raftLog`committed
      ensures Valid() && N.Done(View(), {}) == N.StepLeader(old(View()), m)
    {
      if m.mtype == MsgAppendResponse {
        HandlerAppendResponse(m);
      }
    }

    method Dispatch(m: Message, ghost ch: N.Choice)
      requires Valid() && N.Dispatch(View(), m, ch).Done? && !ch.byMessageTerm
      requires role.PreCandidate? || role.Candidate? ==> ch.giveUp == GivesUp(m)
      modifies this, prs`progress, raftLog, raftLog.unstable
      ensures Valid() && old(msgs) <= msgs
      ensures N.Done(View(), Posted(|old(msgs)|)) == N.Dispatch(old(View()), m, ch)
    {
      assert Posted(|msgs|) == {};
      if m.mtype == MsgHup {
        Hup();
      } else if m.mtype in {MsgRequestVote, MsgRequestPreVote} {
        HandlerVoteRequest(m);
      } else {
        match role
        case PreCandidate => StepCandidate(m, ch);
        case Candidate => StepCandidate(m, ch);
        case Follower => StepFollower(m, ch);
        case Leader => StepLeader(m);
      }
    }

    /** One message: the object makes exactly the step the cluster runs are made of, so every theorem
        about runs speaks about it. */
    method Step(m: Message)
      requires Valid() && N.Step(View(), m, Chosen(m)).Done?
      modifies this, prs`progress, raftLog, raftLog.unstable
      ensures Valid() && old(msgs) <= msgs
      ensures N.Done(View(), Posted(|old(msgs)|)) == N.Step(old(View()), m, old(Chosen(m)))
    {
      ghost var ch := Chosen(m);
      var finished := Enter(m);
      if !finished {
        Dispatch(m, ch);
      }
    }
  }
}
