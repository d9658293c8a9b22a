/** One Raft node as a value: what each transition of `raft.rs` makes of it and which messages it
    sends. The `Raft` class is proved against these functions and the cluster runs them. */
module NodeSpec {
  import opened RaftTypes
  import opened AbstractLog
  import opened ProgressSpec
  import opened Quorum

  datatype Role = Follower | Candidate | Leader | PreCandidate

  datatype Node = Node(
    id: nat,
    role: Role,
    term: nat,
    vote: nat,
    leaderId: nat,
    votes: map<nat, bool>,
    log: Log,
    prs: map<nat, Pr>,
    voters: set<nat>,
    preVote: bool,
    checkQuorum: bool,
    maxMsgSize: nat)
  {
    ghost predicate WellFormed() {
      voters != {} && voters <= prs.Keys && id in prs && log.WellFormed()
    }
  }

  /** What one step of a node ends in: a panic of the source, or a new state and what was sent. */
  datatype Outcome = Panic | Done(node: Node, out: set<Message>)

  /** The choices a step leaves open.
      `drop`: a vote request of a higher term is ignored (a live lease; as written, always).
      `giveUp`: a candidate short of a quorum steps down after counting a response (the source
      swaps two outcomes of `candidacy_status`).
      `byMessageTerm`: the append handler compares the message's own term at the previous index
      (as written) instead of the previous entry's term. */
  datatype Choice = Choice(drop: bool, giveUp: bool, byMessageTerm: bool)

  /** Every message handled, and handled as the source means to. */
  const AS_MEANT := Choice(false, false, false)

  function Backers(n: Node): set<nat> { set v | v in n.votes && n.votes[v] }

  predicate Elected(n: Node) { |Backers(n)| >= Majority(|n.voters|) }

  // ---- role changes ----

  function ResetPeers(n: Node): map<nat, Pr> {
    map j | j in n.prs ::
      var pr := n.prs[j].Reset(n.log.LastIndex() + 1);
      if j == n.id then pr.(matched := n.log.LastIndex()) else pr
  }

  function Reset(n: Node, term: nat): Node {
    n.(term := term,
       vote := if n.term == term then n.vote else INVALID_ID,
       leaderId := INVALID_ID,
       votes := map[],
       prs := ResetPeers(n))
  }

  function BecomeFollower(n: Node, term: nat, leader: nat): Node {
    Reset(n, term).(leaderId := leader, role := Follower)
  }

  function BecomePreCandidate(n: Node): Node {
    n.(role := PreCandidate, votes := map[], leaderId := INVALID_ID)
  }

  function BecomeCandidate(n: Node): Node {
    Reset(n, n.term + 1).(vote := n.id, role := Candidate)
  }

  function RegisterVote(n: Node, from: nat, accept: bool): Node {
    if from in n.votes then n else n.(votes := n.votes[from := accept])
  }

  // ---- the leader's log ----

  ghost function MaybeCommit(n: Node): Node
    requires n.voters != {} && n.voters <= n.prs.Keys
  {
    n.(log := n.log.MaybeCommit(MaximalCommitted(n.prs, n.voters), n.term))
  }

  function Stamped(es: seq<Entry>, term: nat, first: nat): (r: seq<Entry>)
    ensures |r| == |es|
  {
    seq(|es|, k requires 0 <= k < |es| => es[k].(term := term, index := first + k))
  }

  /** `append_entry` up to, and without, the commit test. */
  function Appended(n: Node, es: seq<Entry>): Node
    requires n.id in n.prs
  {
    var log := n.log.(ents := n.log.ents + Stamped(es, n.term, n.log.LastIndex() + 1));
    n.(log := log, prs := n.prs[n.id := n.prs[n.id].MaybeUpdate(log.LastIndex())])
  }

  ghost function AppendEntry(n: Node, es: seq<Entry>): Node
    requires n.WellFormed()
  {
    MaybeCommit(Appended(n, es))
  }

  const EMPTY_ENTRY := Entry(EntryNormal, 0, 0, [])

  function Enthroned(n: Node): Node {
    var r := Reset(n, n.term).(leaderId := n.id, role := Leader);
    if n.id in r.prs then r.(prs := r.prs[n.id := r.prs[n.id].BecomeReplicate()]) else r
  }

  ghost function BecomeLeader(n: Node): Node
    requires n.WellFormed()
  {
    AppendEntry(Enthroned(n), [EMPTY_ENTRY])
  }

  // ---- campaigning ----

  function VoteRequest(n: Node, mtype: MessageType, term: nat, to: nat): Message {
    Message(mtype, to, n.id, term, logTerm := n.log.LastTerm(), index := n.log.LastIndex())
  }

  function VoteRequests(n: Node, mtype: MessageType, term: nat): set<Message> {
    set j | j in n.voters && j != n.id :: VoteRequest(n, mtype, term, j)
  }

  /** `campaign(CAMPAIGN_ELECTION)`. A leader becoming a candidate is an assertion failure of the source. */
  ghost function CampaignElection(n: Node): Outcome
    requires n.WellFormed()
  {
    if n.role == Leader then Panic
    else
      var c := RegisterVote(BecomeCandidate(n), n.id, true);
      if Elected(c) then Done(BecomeLeader(c), {})
      else Done(c, VoteRequests(c, MsgRequestVote, c.term))
  }

  /** `campaign(CAMPAIGN_PRE_ELECTION)`: asks at the next term without entering it. */
  ghost function CampaignPreElection(n: Node): Outcome
    requires n.WellFormed()
  {
    if n.role == Leader then Panic
    else
      var c := RegisterVote(BecomePreCandidate(n), n.id, true);
      if Elected(c) then CampaignElection(c)
      else Done(c, VoteRequests(c, MsgRequestPreVote, c.term + 1))
  }

  predicate PendingConfChange(l: Log)
    requires l.base <= l.applied <= l.committed <= l.LastIndex()
  {
    l.committed > l.applied &&
    exists e :: e in l.Range(l.applied + 1, l.committed + 1) && e.etype == EntryConfChange
  }

  ghost function Hup(n: Node): Outcome
    requires n.WellFormed()
  {
    if n.role == Leader then Done(n, {})
    else if !(n.log.base <= n.log.applied <= n.log.committed <= n.log.LastIndex()) then Panic
    else if PendingConfChange(n.log) then Done(n, {})
    else if n.preVote then CampaignPreElection(n)
    else CampaignElection(n)
  }

  // ---- voting ----

  function VoteRespType(t: MessageType): MessageType {
    if t == MsgRequestVote then MsgRequestVoteResponse else MsgRequestPreVoteResponse
  }

  predicate CanVote(n: Node, m: Message) {
    || n.vote == m.from
    || (n.vote == INVALID_ID && n.leaderId == INVALID_ID)
    || (m.mtype == MsgRequestPreVote && m.term > n.term)
  }

  function HandleVoteRequest(n: Node, m: Message): Outcome {
    if CanVote(n, m) && n.log.IsUpToDate(m.index, m.logTerm) then
      if m.term == 0 then Panic
      else Done(if m.mtype == MsgRequestVote then n.(vote := m.from) else n,
                {Message(VoteRespType(m.mtype), m.from, n.id, m.term)})
    else if n.term == 0 then Panic
    else Done(n, {Message(VoteRespType(m.mtype), m.from, n.id, n.term, reject := true)})
  }

  // ---- replication: the follower's side ----

  ghost function HandleAppend(n: Node, m: Message, ch: Choice): Outcome {
    if m.index < n.log.committed then
      Done(n, {Message(MsgAppendResponse, m.from, n.id, n.term, index := n.log.committed)})
    else
      match n.log.MaybeAppend(m.index, if ch.byMessageTerm then m.term else m.logTerm, m.commit, m.entries)
      case Panicked => Panic
      case Accepted(log, last) =>
        Done(n.(log := log), {Message(MsgAppendResponse, m.from, n.id, n.term, index := last)})
      case Rejected =>
        Done(n, {Message(MsgAppendResponse, m.from, n.id, n.term, index := m.index, reject := true,
                         rejectHint := n.log.LastIndex())})
  }

  function HandleHeartbeat(n: Node, m: Message): Outcome {
    if !n.log.CanCommit(m.commit) then Panic
    else Done(n.(log := n.log.CommitTo(m.commit)),
              {Message(MsgHeartbeatResponse, m.from, n.id, n.term, context := m.context)})
  }

  // ---- replication: the leader's side ----

  /** The batch `send_append` takes for a peer that expects index `next`. */
  function Batch(n: Node, next: nat): Result<seq<Entry>> { n.log.Entries(next, n.maxMsgSize) }

  function AppendMessage(n: Node, to: nat, next: nat, es: seq<Entry>): Message
    requires next >= 1
  {
    Message(MsgAppend, to, n.id, n.term, logTerm := n.log.TermAt(next - 1), index := next - 1,
            entries := es, commit := n.log.committed)
  }

  datatype Sending = SendPanic | Sending(pr: Pr, out: set<Message>)

  /** `send_append` to one peer: it reads the log and changes that peer's record only. The snapshot
      it would send for a compacted index is not modelled. */
  function SendTo(n: Node, to: nat): Sending
    requires to in n.prs
  {
    var pr := n.prs[to];
    if pr.IsPaused() then Sending(pr, {})
    else if pr.nextIdx == 0 then SendPanic
    else
      match Batch(n, pr.nextIdx)
      case Err(_) => Sending(pr, {})
      case Ok(es) =>
        var sent := AppendMessage(n, to, pr.nextIdx, es);
        if es == [] then Sending(pr, {sent})
        else if pr.state == Snapshotting || (pr.state == Replicate && |pr.ins| == pr.cap) then SendPanic
        else Sending(pr.Sent(es[|es| - 1].index), {sent})
  }

  function SendAppend(n: Node, to: nat): Outcome {
    if to !in n.prs then Done(n, {})
    else
      match SendTo(n, to)
      case SendPanic => Panic
      case Sending(pr, out) => Done(n.(prs := n.prs[to := pr]), out)
  }

  /** `bcast_append`: one `send_append` for every other peer. */
  function Broadcast(n: Node): Outcome {
    if exists j :: j in n.prs && j != n.id && SendTo(n, j).SendPanic? then Panic
    else Done(n.(prs := map j | j in n.prs :: if j == n.id then n.prs[j] else SendTo(n, j).pr),
              set j, m | j in n.prs && j != n.id && m in SendTo(n, j).out :: m)
  }

  function SendHeartbeat(n: Node, to: nat, context: Bytes): Outcome {
    if to !in n.prs then Done(n, {})
    else Done(n, {Message(MsgHeartbeat, to, n.id, n.term,
                          commit := Min(n.prs[to].matched, n.log.committed), context := context)})
  }

  /** The leader's reaction to an append response: the repository's README.md rules, with the
      commit test after an acceptance. */
  ghost function HandleAppendResponse(n: Node, m: Message): Outcome
    requires n.WellFormed()
  {
    if m.from !in n.prs then Done(n, {})
    else if m.reject then Done(n.(prs := n.prs[m.from := n.prs[m.from].MaybeDecrTo(m.index, m.rejectHint)]), {})
    else Done(MaybeCommit(n.(prs := n.prs[m.from := n.prs[m.from].MaybeUpdate(m.index)])), {})
  }

  // ---- stepping ----

  ghost function StepCandidate(n: Node, m: Message, ch: Choice): Outcome
    requires n.WellFormed()
  {
    match m.mtype
    case MsgAppend => if m.term != n.term then Panic else HandleAppend(BecomeFollower(n, m.term, m.from), m, ch)
    case MsgHeartbeat => if m.term != n.term then Panic else HandleHeartbeat(BecomeFollower(n, m.term, m.from), m)
    case MsgRequestVoteResponse => if n.role == PreCandidate then Done(n, {}) else CountVote(n, m, ch)
    case MsgRequestPreVoteResponse => if n.role == Candidate then Done(n, {}) else CountVote(n, m, ch)
    case _ => Done(n, {})
  }

  ghost function CountVote(n: Node, m: Message, ch: Choice): Outcome
    requires n.WellFormed()
  {
    var c := RegisterVote(n, m.from, !m.reject);
    if Elected(c) then
      if c.role == PreCandidate then CampaignElection(c)
      else if c.role == Leader then Panic
      else Broadcast(BecomeLeader(c))
    else if ch.giveUp then Done(BecomeFollower(c, c.term, INVALID_ID), {})
    else Done(c, {})
  }

  /** `step_follower` is a stub in the source; its public handlers are called directly. */
  ghost function StepFollower(n: Node, m: Message, ch: Choice): Outcome {
    match m.mtype
    case MsgAppend => HandleAppend(n, m, ch)
    case MsgHeartbeat => HandleHeartbeat(n, m)
    case _ => Done(n, {})
  }

  /** `step_leader` is a stub in the source; only append responses are acted upon. */
  ghost function StepLeader(n: Node, m: Message): Outcome
    requires n.WellFormed()
  {
    if m.mtype == MsgAppendResponse then HandleAppendResponse(n, m) else Done(n, {})
  }

  /** The term comparison at the head of `step`: either the message is finished with, or the node it
      is to be handled by is known. */
  datatype Entrance = Finished(node: Node, out: set<Message>) | Proceed(node: Node)

  function Enter(n: Node, m: Message, ch: Choice): Entrance {
    if m.term == 0 then Proceed(n)
    else if m.term > n.term then
      if m.mtype in {MsgRequestVote, MsgRequestPreVote} && ch.drop then Finished(n, {})
      else if m.mtype == MsgRequestPreVote || (m.mtype == MsgRequestPreVoteResponse && !m.reject) then Proceed(n)
      else Proceed(BecomeFollower(n, m.term, if m.mtype in {MsgAppend, MsgHeartbeat} then m.from else INVALID_ID))
    else if m.term < n.term then
      if (n.checkQuorum || n.preVote) && m.mtype in {MsgHeartbeat, MsgAppend} then
        Finished(n, {Message(MsgAppendResponse, m.from, n.id, n.term)})
      else if m.mtype == MsgRequestPreVote then
        Finished(n, {Message(MsgRequestPreVoteResponse, m.from, n.id, n.term, reject := true)})
      else Finished(n, {})
    else Proceed(n)
  }

  ghost function Dispatch(n: Node, m: Message, ch: Choice): Outcome
    requires n.WellFormed()
  {
    if m.mtype == MsgHup then Hup(n)
    else if m.mtype in {MsgRequestVote, MsgRequestPreVote} then HandleVoteRequest(n, m)
    else if n.role in {PreCandidate, Candidate} then StepCandidate(n, m, ch)
    else if n.role == Follower then StepFollower(n, m, ch)
    else StepLeader(n, m)
  }

  ghost function Step(n: Node, m: Message, ch: Choice): Outcome
    requires n.WellFormed()
  {
    match Enter(n, m, ch)
    case Finished(n', out) => Done(n', out)
    case Proceed(n') => Dispatch(n', m, ch)
  }

  // ---- stopping and starting again ----

  function HardStateOf(n: Node): HardState { HardState(n.term, n.vote, n.log.committed) }

  /** `Raft::new` over the stored log and a stored hard state: `load_state` unless the hard state is
      the empty one, `applied_to`, follower. */
  function Restart(n: Node, hs: HardState, applied: nat): Outcome {
    var commit := if hs == HardState(0, 0, 0) then n.log.base else hs.commit;
    if commit < n.log.base || commit > n.log.LastIndex() then Panic
    else
      var log := n.log.(committed := commit, applied := n.log.base);
      if applied > 0 && !log.CanApply(applied) then Panic
      else
        var loaded := n.(term := hs.term, vote := hs.vote, log := log.AppliedTo(applied));
        Done(BecomeFollower(loaded, hs.term, INVALID_ID), {})
  }
}
